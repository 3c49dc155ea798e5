/** internal/register/wgquick.go: the wg-quick file for users who carry the
    peer on their own WireGuard, and a reader for such files. */
module WgQuick {
  import opened Basics
  import opened Text
  import opened Register

  // ---------- the printer ----------

  const ADVICE := "# Add this to your existing " + "WireGuard setup (wg-quick, " + "router, container)."
  const REACH := "# traffic arriving there " + "reaches your Jellyfin server."

  function Title(subdomain: string): string { "# Tunnelo peer for " + subdomain }

  function Route(address: string, port: int): string {
    "# The gateway routes your" + " subdomain to " + Split(address, '/')[0] + " port " + Itoa(port) + " \U{2014} make sure"
  }

  function Entry(key: string, value: string): string { key + " = " + value }

  function Comments(s: State): seq<string> {
    [Title(s.subdomain), ADVICE, Route(s.wireGuard.address, s.servicePort), REACH, ""]
  }

  function InterfaceLines(s: State): seq<string> {
    [Entry("PrivateKey", s.privateKey), Entry("Address", s.wireGuard.address)]
    + (if s.wireGuard.mtu > 0 then [Entry("MTU", Itoa(s.wireGuard.mtu))] else [])
    + [""]
  }

  function PeerLines(p: Peer): seq<string> {
    [Entry("PublicKey", p.publicKey), Entry("Endpoint", p.endpoint), Entry("AllowedIPs", Join(p.allowedIPs, ", "))]
    + (if p.keepalive > 0 then [Entry("PersistentKeepalive", Itoa(p.keepalive))] else [])
  }

  function Lines(s: State): seq<string> {
    Comments(s) + ["[Interface]"] + InterfaceLines(s) + ["[Peer]"] + PeerLines(s.wireGuard.peer)
  }

  /** Each line followed by a newline. */
  function Unlines(ls: seq<string>): string {
    if ls == [] then "" else ls[0] + "\n" + Unlines(ls[1..])
  }

  /** What writing one more line does to the text and to its list of lines. */
  lemma {:induction false} AddLine(ls: seq<string>, l: string)
    ensures Unlines(ls + [l]) == Unlines(ls) + (l + "\n")
  {
    if ls == [] {
      assert Unlines([l]) == l + "\n" + Unlines([]);
    } else {
      AddLine(ls[1..], l);
      assert (ls + [l])[1..] == ls[1..] + [l];
    }
  }

  method WriteLine(b: string, ghost ls: seq<string>, l: string) returns (r: string, ghost after: seq<string>)
    requires b == Unlines(ls)
    ensures after == ls + [l]
    ensures r == Unlines(after)
  {
    AddLine(ls, l);
    r, after := b + (l + "\n"), ls + [l];
  }

  method WriteComments(s: State) returns (b: string, ghost ls: seq<string>)
    ensures ls == Comments(s) && b == Unlines(ls)
  {
    b, ls := "", [];
    assert b == Unlines(ls);
    hide Unlines, Title, Route;
    b, ls := WriteLine(b, ls, Title(s.subdomain));
    b, ls := WriteLine(b, ls, ADVICE);
    b, ls := WriteLine(b, ls, Route(s.wireGuard.address, s.servicePort));
    b, ls := WriteLine(b, ls, REACH);
    b, ls := WriteLine(b, ls, "");
  }

  method WriteInterface(b: string, ghost ls: seq<string>, s: State) returns (r: string, ghost after: seq<string>)
    requires b == Unlines(ls)
    ensures after == ls + InterfaceLines(s) && r == Unlines(after)
  {
    hide Itoa, Unlines, Entry;
    r, after := WriteLine(b, ls, Entry("PrivateKey", s.privateKey));
    r, after := WriteLine(r, after, Entry("Address", s.wireGuard.address));
    if s.wireGuard.mtu > 0 {
      r, after := WriteLine(r, after, Entry("MTU", Itoa(s.wireGuard.mtu)));
    }
    r, after := WriteLine(r, after, "");
  }

  method WritePeer(b: string, ghost ls: seq<string>, p: Peer) returns (r: string, ghost after: seq<string>)
    requires b == Unlines(ls)
    ensures after == ls + PeerLines(p) && r == Unlines(after)
  {
    hide Itoa, Join, Unlines, Entry;
    r, after := WriteLine(b, ls, Entry("PublicKey", p.publicKey));
    r, after := WriteLine(r, after, Entry("Endpoint", p.endpoint));
    r, after := WriteLine(r, after, Entry("AllowedIPs", Join(p.allowedIPs, ", ")));
    if p.keepalive > 0 {
      r, after := WriteLine(r, after, Entry("PersistentKeepalive", Itoa(p.keepalive)));
    }
  }

  /** State.WgQuickConfig, section by section: the file reads back as what it
      is meant to say, exactly when its list can be read back. */
  method WgQuickConfig(s: State) returns (b: string)
    ensures b == Unlines(Lines(s))
    ensures Printable(s) ==> (Read(b) == ViewOf(s) <==> Listable(s.wireGuard.peer.allowedIPs))
  {
    if Printable(s) {
      ReadUndoesRender(s);
    }
    hide Read, ViewOf, Printable, Listable;
    hide Unlines, Comments, InterfaceLines, PeerLines;
    ghost var ls;
    b, ls := WriteComments(s);
    b, ls := WriteLine(b, ls, "[Interface]");
    b, ls := WriteInterface(b, ls, s);
    b, ls := WriteLine(b, ls, "[Peer]");
    b, ls := WritePeer(b, ls, s.wireGuard.peer);
  }

  // ---------- a reader ----------

  predicate HasPrefix(line: string, p: string) { |p| <= |line| && line[..|p|] == p }

  predicate IsHeader(line: string) { line != "" && line[0] == '[' }

  /** The lines up to the next section header. */
  function UpToHeader(ls: seq<string>): seq<string> {
    if ls == [] || IsHeader(ls[0]) then [] else [ls[0]] + UpToHeader(ls[1..])
  }

  /** The lines of the first section with this header. */
  function Section(ls: seq<string>, header: string): seq<string> {
    if ls == [] then []
    else if ls[0] == header then UpToHeader(ls[1..])
    else Section(ls[1..], header)
  }

  /** The value of the first `key = value` line. */
  function Field(ls: seq<string>, key: string): Option<string> {
    if ls == [] then None
    else if HasPrefix(ls[0], key + " = ") then Some(ls[0][|key| + 3..])
    else Field(ls[1..], key)
  }

  function NumberField(ls: seq<string>, key: string): Option<int> {
    match Field(ls, key)
    case None => None
    case Some(v) => Atoi(v)
  }

  /** A comma-separated list, blanks around its items dropped. */
  function Items(value: string): seq<string> {
    if value == "" then [] else
      var parts := Split(value, ',');
      seq(|parts|, i requires 0 <= i < |parts| => Trim(parts[i]))
  }

  datatype View = View(
    privateKey: Option<string>, address: Option<string>, mtu: Option<int>, publicKey: Option<string>,
    endpoint: Option<string>, allowedIPs: Option<seq<string>>, keepalive: Option<int>)

  function Read(text: string): View {
    var ls := Split(text, '\n');
    var own, peer := Section(ls, "[Interface]"), Section(ls, "[Peer]");
    var ips := Field(peer, "AllowedIPs");
    View(Field(own, "PrivateKey"), Field(own, "Address"), NumberField(own, "MTU"),
         Field(peer, "PublicKey"), Field(peer, "Endpoint"),
         if ips.None? then None else Some(Items(ips.value)), NumberField(peer, "PersistentKeepalive"))
  }

  /** What the file is meant to say. */
  function ViewOf(s: State): View {
    var p := s.wireGuard.peer;
    View(Some(s.privateKey), Some(s.wireGuard.address),
         if s.wireGuard.mtu > 0 then Some(s.wireGuard.mtu) else None,
         Some(p.publicKey), Some(p.endpoint), Some(p.allowedIPs),
         if p.keepalive > 0 then Some(p.keepalive) else None)
  }

  predicate OneLine(t: string) { '\n' !in t }

  /** Every field is one line of text. */
  predicate Printable(s: State) {
    && OneLine(s.subdomain) && OneLine(s.privateKey) && OneLine(s.wireGuard.address)
    && OneLine(s.wireGuard.peer.publicKey) && OneLine(s.wireGuard.peer.endpoint)
    && forall i :: 0 <= i < |s.wireGuard.peer.allowedIPs| ==> OneLine(s.wireGuard.peer.allowedIPs[i])
  }

  /** Lists a comma-separated value can carry: no item holds a comma or has
      blanks around it, and the list is not the single empty item, which looks
      like the empty list. */
  predicate Listable(items: seq<string>) {
    && (forall i :: 0 <= i < |items| ==> ',' !in items[i] && Trim(items[i]) == items[i])
    && items != [""]
  }

  // ---------- the list value ----------

  lemma TrimTrimmed(s: string)
    ensures Trim(Trim(s)) == Trim(s)
    ensures forall d :: d in Trim(s) ==> d in s
  {
    if exists c :: c in s && !IsSpace(c) {
      var c :| c in s && !IsSpace(c);
      TrimKeeps(s, c);
      TrimEnd(s, c);
      TrimFixed(Trim(s));
    } else {
      TrimBlank(s, 0);
      assert Trim(s) == "";
    }
  }

  lemma {:induction false} TrimBlank(s: string, i: nat)
    requires i <= |s| && forall c :: c in s ==> IsSpace(c)
    ensures SkipSpaces(s, i) == |s|
    decreases |s| - i
  {
    if i < |s| {
      assert s[i] in s;
      TrimBlank(s, i + 1);
    }
  }

  lemma {:induction false} DropSpacesEnd(s: string, i: nat)
    requires i <= |s|
    ensures var r := DropSpaces(s, i); r > 0 ==> !IsSpace(s[r - 1])
  {
    if i > 0 && IsSpace(s[i - 1]) {
      DropSpacesEnd(s, i - 1);
    }
  }

  lemma TrimEnd(s: string, c: char)
    requires c in s && !IsSpace(c)
    ensures var t := Trim(s); t != "" && !IsSpace(t[|t| - 1])
  {
    TrimKeeps(s, c);
    DropSpacesEnd(s, |s|);
  }

  lemma SliceShift(s: string, from: nat, to: nat)
    requires from <= to <= |s|
    ensures (" " + s)[from + 1..to + 1] == s[from..to]
  {
    var shifted := (" " + s)[from + 1..to + 1];
    assert |shifted| == to - from;
    forall k | 0 <= k < to - from
      ensures shifted[k] == s[from..to][k]
    {
      assert shifted[k] == (" " + s)[from + 1 + k] == s[from + k];
    }
  }

  lemma TrimLeadingBlank(s: string)
    ensures Trim(" " + s) == Trim(s)
  {
    hide SkipSpaces, DropSpaces, IsSpace;
    var from, to := SkipSpaces(s, 0), DropSpaces(s, |s|);
    LeadingBlank(s);
    SkipShift(s, 0);
    DropShift(s, |s|);
    if from < to {
      SliceShift(s, from, to);
    }
  }

  lemma LeadingBlank(s: string)
    ensures SkipSpaces(" " + s, 0) == SkipSpaces(" " + s, 1)
  {
    assert (" " + s)[0] == ' ';
    hide DropSpaces;
  }

  lemma {:induction false} SkipShift(s: string, i: nat)
    requires i <= |s|
    ensures SkipSpaces(" " + s, i + 1) == SkipSpaces(s, i) + 1
    decreases |s| - i
  {
    if i < |s| {
      assert (" " + s)[i + 1] == s[i];
      SkipShift(s, i + 1);
    }
  }

  lemma {:induction false} DropShift(s: string, i: nat)
    requires i <= |s|
    ensures DropSpaces(" " + s, i + 1) == if DropSpaces(s, i) == 0 then 0 else DropSpaces(s, i) + 1
  {
    if i > 0 {
      assert (" " + s)[i] == s[i - 1];
      DropShift(s, i - 1);
    } else {
      assert DropSpaces(" " + s, 1) == DropSpaces(" " + s, 0);
    }
  }

  function Indented(items: seq<string>): (r: seq<string>)
    ensures |r| == |items| && forall i :: 0 <= i < |r| ==> r[i] == " " + items[i]
  {
    if items == [] then [] else [" " + items[0]] + Indented(items[1..])
  }

  /** Splitting at the commas leaves the blank after each comma. */
  lemma {:induction false} CommaParts(lead: string, items: seq<string>)
    requires items != [] && ',' !in lead
    requires forall i :: 0 <= i < |items| ==> ',' !in items[i]
    ensures Split(lead + Join(items, ", "), ',') == [lead + items[0]] + Indented(items[1..])
    decreases |items|
  {
    if |items| == 1 {
      SplitHead(lead + items[0], ',', "");
    } else {
      var rest := items[1..];
      CommaParts(" ", rest);
      SplitHead(lead + items[0], ',', " " + Join(rest, ", "));
      assert ", " == [','] + " ";
      assert lead + Join(items, ", ") == (lead + items[0]) + [','] + (" " + Join(rest, ", "));
    }
  }

  lemma ItemsOfList(items: seq<string>)
    requires Listable(items) && items != []
    ensures Items(Join(items, ", ")) == items
  {
    var v := Join(items, ", ");
    assert v != "";
    CommaParts("", items);
    assert "" + v == v;
    hide Join, Split, Trim;
    forall i | 0 < i < |items|
      ensures Trim(" " + items[i]) == items[i]
    {
      TrimLeadingBlank(items[i]);
    }
    assert "" + items[0] == items[0];
  }

  /** A list survives printing and reading exactly when it is listable. */
  lemma ListSurvives(items: seq<string>)
    ensures Items(Join(items, ", ")) == items <==> Listable(items)
  {
    var v := Join(items, ", ");
    if Listable(items) && items != [] {
      ItemsOfList(items);
    }
    if Items(v) == items && items != [] {
      var parts := Split(v, ',');
      forall i | 0 <= i < |items|
        ensures ',' !in items[i] && Trim(items[i]) == items[i]
      {
        assert items[i] == Trim(parts[i]);
        TrimTrimmed(parts[i]);
      }
    }
  }

  // ---------- lines ----------

  /** Cutting the text at its newlines gives the lines back. */
  lemma {:induction false} LinesOfUnlines(ls: seq<string>)
    requires forall i :: 0 <= i < |ls| ==> OneLine(ls[i])
    ensures Split(Unlines(ls), '\n') == ls + [""]
  {
    if ls != [] {
      LinesOfUnlines(ls[1..]);
      SplitHead(ls[0], '\n', Unlines(ls[1..]));
      assert "\n" == ['\n'];
      assert [ls[0]] + (ls[1..] + [""]) == ls + [""];
    }
  }

  lemma {:induction false} FirstPart(s: string, sep: char, c: char)
    requires c !in s
    ensures c !in Split(s, sep)[0]
  {
    if s != "" && s[0] != sep {
      assert forall d :: d in s[1..] ==> d in s;
      FirstPart(s[1..], sep, c);
    }
  }

  lemma {:induction false} JoinedIsOneLine(items: seq<string>)
    requires forall i :: 0 <= i < |items| ==> OneLine(items[i])
    ensures OneLine(Join(items, ", "))
  {
    if |items| > 1 {
      JoinedIsOneLine(items[1..]);
    }
  }

  predicate IsBody(line: string) { OneLine(line) && !IsHeader(line) }

  lemma BodyAppend(a: string, b: string)
    requires a != "" && IsBody(a) && OneLine(b)
    ensures IsBody(a + b)
  {
  }

  lemma TitleIsBody(subdomain: string)
    requires OneLine(subdomain)
    ensures IsBody(Title(subdomain))
  {
    assert IsBody("# Tunnelo peer for ");
    BodyAppend("# Tunnelo peer for ", subdomain);
  }

  lemma RouteIsBody(address: string, port: int)
    requires OneLine(address)
    ensures IsBody(Route(address, port))
  {
    FirstPart(address, '/', '\n');
    var own, number := Split(address, '/')[0], Itoa(port);
    assert OneLine(own) && OneLine(number);
    hide Split, Itoa;
    assert IsBody("# The gateway routes your");
    assert OneLine(" subdomain to ") && OneLine(" port ") && OneLine(" \U{2014} make sure");
    hide IsBody, OneLine;
    var line := "# The gateway routes your";
    BodyAppend(line, " subdomain to ");
    BodyAppend(line + " subdomain to ", own);
    BodyAppend(line + " subdomain to " + own, " port ");
    BodyAppend(line + " subdomain to " + own + " port ", number);
    BodyAppend(line + " subdomain to " + own + " port " + number, " \U{2014} make sure");
  }

  lemma AdviceIsBody()
    ensures IsBody(ADVICE)
  {
    var a, b, c := "# Add this to your existing ", "WireGuard setup (wg-quick, ", "router, container).";
    assert IsBody(a);
    assert OneLine(b) && OneLine(c);
    hide IsBody, OneLine;
    BodyAppend(a, b);
    BodyAppend(a + b, c);
  }

  lemma ReachIsBody()
    ensures IsBody(REACH)
  {
    var a, b := "# traffic arriving there ", "reaches your Jellyfin server.";
    assert IsBody(a) && OneLine(b);
    hide IsBody, OneLine;
    BodyAppend(a, b);
  }

  lemma EntryIsBody(key: string, value: string)
    requires key != "" && IsBody(key) && OneLine(value)
    ensures IsBody(Entry(key, value))
  {
    assert Entry(key, value)[0] == key[0];
  }

  lemma CommentsAreBody(s: State)
    requires Printable(s)
    ensures forall i :: 0 <= i < |Comments(s)| ==> IsBody(Comments(s)[i])
  {
    TitleIsBody(s.subdomain);
    RouteIsBody(s.wireGuard.address, s.servicePort);
    AdviceIsBody();
    ReachIsBody();
    assert IsBody("");
    hide IsBody, Title, Route;
  }

  lemma InterfaceLinesAreBody(s: State)
    requires Printable(s)
    ensures forall i :: 0 <= i < |InterfaceLines(s)| ==> IsBody(InterfaceLines(s)[i])
  {
    EntryIsBody("PrivateKey", s.privateKey);
    EntryIsBody("Address", s.wireGuard.address);
    EntryIsBody("MTU", Itoa(s.wireGuard.mtu));
    assert IsBody("");
    hide IsBody, Entry, Itoa;
  }

  lemma PeerLinesAreBody(p: Peer)
    requires OneLine(p.publicKey) && OneLine(p.endpoint)
    requires forall i :: 0 <= i < |p.allowedIPs| ==> OneLine(p.allowedIPs[i])
    ensures forall i :: 0 <= i < |PeerLines(p)| ==> IsBody(PeerLines(p)[i])
  {
    JoinedIsOneLine(p.allowedIPs);
    EntryIsBody("PublicKey", p.publicKey);
    EntryIsBody("Endpoint", p.endpoint);
    EntryIsBody("AllowedIPs", Join(p.allowedIPs, ", "));
    EntryIsBody("PersistentKeepalive", Itoa(p.keepalive));
    hide IsBody, Entry, Itoa, Join;
  }

  lemma LinesAreLines(s: State)
    requires Printable(s)
    ensures forall i :: 0 <= i < |Lines(s)| ==> OneLine(Lines(s)[i])
  {
    CommentsAreBody(s);
    InterfaceLinesAreBody(s);
    PeerLinesAreBody(s.wireGuard.peer);
    assert OneLine("[Interface]") && OneLine("[Peer]");
    hide Comments, InterfaceLines, PeerLines, OneLine;
  }

  // ---------- sections and fields ----------

  lemma {:induction false} UpToNextHeader(body: seq<string>, after: seq<string>)
    requires forall i :: 0 <= i < |body| ==> !IsHeader(body[i])
    requires after == [] || IsHeader(after[0])
    ensures UpToHeader(body + after) == body
  {
    if body == [] {
      assert body + after == after;
    } else {
      UpToNextHeader(body[1..], after);
      assert (body + after)[1..] == body[1..] + after;
    }
  }

  lemma {:induction false} SectionFound(before: seq<string>, header: string, body: seq<string>, after: seq<string>)
    requires header !in before
    requires forall i :: 0 <= i < |body| ==> !IsHeader(body[i])
    requires after == [] || IsHeader(after[0])
    ensures Section(before + [header] + body + after, header) == body
  {
    var ls := before + [header] + body + after;
    if before == [] {
      UpToNextHeader(body, after);
      assert ls[1..] == body + after;
    } else {
      SectionFound(before[1..], header, body, after);
      assert ls[1..] == before[1..] + [header] + body + after;
    }
  }

  lemma {:induction false} FieldFound(ls: seq<string>, key: string, value: string, k: nat)
    requires k < |ls| && ls[k] == Entry(key, value)
    requires forall i :: 0 <= i < k ==> !HasPrefix(ls[i], key + " = ")
    ensures Field(ls, key) == Some(value)
  {
    if k > 0 {
      FieldFound(ls[1..], key, value, k - 1);
    } else {
      assert ls[0] == (key + " = ") + value;
    }
  }

  lemma {:induction false} FieldAbsent(ls: seq<string>, key: string)
    requires forall i :: 0 <= i < |ls| ==> !HasPrefix(ls[i], key + " = ")
    ensures Field(ls, key) == None
  {
    if ls != [] {
      FieldAbsent(ls[1..], key);
    }
  }

  /** An entry belongs to one key only, when keys differ within their first
      two letters. */
  lemma OtherKey(key: string, value: string, other: string)
    requires |key| >= 2 && |other| >= 2 && (key[0] != other[0] || key[1] != other[1])
    ensures !HasPrefix(Entry(key, value), other + " = ")
  {
    var line := Entry(key, value);
    var p := other + " = ";
    assert line[0] == key[0] && line[1] == key[1] && p[0] == other[0] && p[1] == other[1];
    assert |p| <= |line| ==> line[..|p|][0] == line[0] && line[..|p|][1] == line[1];
  }

  lemma Regroup(a: seq<string>, b: seq<string>, c: seq<string>, d: seq<string>)
    ensures a + b + c + d == a + (b + (c + d)) == a + b + (c + d) + []
  {
  }

  lemma BothSections(s: State)
    requires Printable(s)
    ensures var ls := Lines(s) + [""];
            && Section(ls, "[Interface]") == InterfaceLines(s)
            && Section(ls, "[Peer]") == PeerLines(s.wireGuard.peer) + [""]
  {
    var own, peer := InterfaceLines(s), PeerLines(s.wireGuard.peer) + [""];
    CommentsAreBody(s);
    InterfaceLinesAreBody(s);
    PeerLinesAreBody(s.wireGuard.peer);
    assert IsHeader("[Interface]") && IsHeader("[Peer]") && "[Interface]" != "[Peer]";
    hide OneLine, Comments, Section, InterfaceLines, PeerLines, IsHeader;
    SectionFound(Comments(s), "[Interface]", own, ["[Peer]"] + peer);
    SectionFound(Comments(s) + ["[Interface]"] + own, "[Peer]", peer, []);
    Regroup(Comments(s) + ["[Interface]"] + own, ["[Peer]"], PeerLines(s.wireGuard.peer), [""]);
  }

  lemma OwnFields(s: State)
    ensures var ls := InterfaceLines(s);
            && Field(ls, "PrivateKey") == Some(s.privateKey)
            && Field(ls, "Address") == Some(s.wireGuard.address)
            && NumberField(ls, "MTU") == if s.wireGuard.mtu > 0 then Some(s.wireGuard.mtu) else None
  {
    var ls, mtu := InterfaceLines(s), Itoa(s.wireGuard.mtu);
    AtoiUndoesItoa(s.wireGuard.mtu);
    hide Itoa, Atoi, Field;
    FieldFound(ls, "PrivateKey", s.privateKey, 0);
    OtherKey("PrivateKey", s.privateKey, "Address");
    FieldFound(ls, "Address", s.wireGuard.address, 1);
    OtherKey("PrivateKey", s.privateKey, "MTU");
    OtherKey("Address", s.wireGuard.address, "MTU");
    if s.wireGuard.mtu > 0 {
      FieldFound(ls, "MTU", mtu, 2);
    } else {
      FieldAbsent(ls, "MTU");
    }
  }

  lemma PeerFields(p: Peer)
    ensures var ls := PeerLines(p) + [""];
            && Field(ls, "PublicKey") == Some(p.publicKey)
            && Field(ls, "Endpoint") == Some(p.endpoint)
            && Field(ls, "AllowedIPs") == Some(Join(p.allowedIPs, ", "))
            && NumberField(ls, "PersistentKeepalive") == if p.keepalive > 0 then Some(p.keepalive) else None
  {
    var ls, ips, keepalive := PeerLines(p) + [""], Join(p.allowedIPs, ", "), Itoa(p.keepalive);
    AtoiUndoesItoa(p.keepalive);
    hide Itoa, Atoi, Field, Join;
    FieldFound(ls, "PublicKey", p.publicKey, 0);
    OtherKey("PublicKey", p.publicKey, "Endpoint");
    FieldFound(ls, "Endpoint", p.endpoint, 1);
    OtherKey("PublicKey", p.publicKey, "AllowedIPs");
    OtherKey("Endpoint", p.endpoint, "AllowedIPs");
    FieldFound(ls, "AllowedIPs", ips, 2);
    OtherKey("PublicKey", p.publicKey, "PersistentKeepalive");
    OtherKey("Endpoint", p.endpoint, "PersistentKeepalive");
    OtherKey("AllowedIPs", ips, "PersistentKeepalive");
    if p.keepalive > 0 {
      FieldFound(ls, "PersistentKeepalive", keepalive, 3);
    } else {
      FieldAbsent(ls, "PersistentKeepalive");
    }
  }

  // ---------- the round trip ----------

  /** For one-line fields the reader recovers every field of the file, MTU and
      keepalive absent exactly when not positive, if and only if the allowed
      addresses can be told apart in a comma-separated list. */
  lemma ReadUndoesRender(s: State)
    requires Printable(s)
    ensures Read(Unlines(Lines(s))) == ViewOf(s) <==> Listable(s.wireGuard.peer.allowedIPs)
  {
    LinesAreLines(s);
    LinesOfUnlines(Lines(s));
    BothSections(s);
    OwnFields(s);
    PeerFields(s.wireGuard.peer);
    ListSurvives(s.wireGuard.peer.allowedIPs);
    hide Lines, Unlines, Items, Join, Listable, Section, Field, NumberField, InterfaceLines, PeerLines, Split;
  }

  /** Two registrations that differ in what the tunnel needs render
      differently. */
  lemma RenderTellsApart(s: State, t: State)
    requires Printable(s) && Listable(s.wireGuard.peer.allowedIPs)
    requires Printable(t) && Listable(t.wireGuard.peer.allowedIPs)
    requires ViewOf(s) != ViewOf(t)
    ensures Unlines(Lines(s)) != Unlines(Lines(t))
  {
    ReadUndoesRender(s);
    ReadUndoesRender(t);
    hide Read, ViewOf, Unlines, Lines;
  }

  lemma CommentsSay(s: State, host: string, prefixLength: string)
    requires '/' !in host && s.wireGuard.address == host + ['/'] + prefixLength
    ensures var ls := Comments(s);
            && |ls| == 5 && ls[4] == ""
            && ls[0] == "# Tunnelo peer for " + s.subdomain
            && ls[2] == "# The gateway routes your" + " subdomain to " + host + " port " + Itoa(s.servicePort) + " \U{2014} make sure"
  {
    SplitHead(host, '/', prefixLength);
    hide Itoa, Split;
  }

  lemma InterfaceSays(s: State)
    ensures var ls := InterfaceLines(s);
            && ls[0] == "PrivateKey" + " = " + s.privateKey && ls[1] == "Address" + " = " + s.wireGuard.address
            && (s.wireGuard.mtu > 0 ==> |ls| == 4 && ls[2] == "MTU" + " = " + Itoa(s.wireGuard.mtu) && ls[3] == "")
            && (s.wireGuard.mtu <= 0 ==> |ls| == 3 && ls[2] == "")
  {
    hide Itoa;
  }

  lemma PeerSays(p: Peer)
    ensures var ls := PeerLines(p);
            && ls[0] == "PublicKey" + " = " + p.publicKey && ls[1] == "Endpoint" + " = " + p.endpoint
            && ls[2] == "AllowedIPs" + " = " + Join(p.allowedIPs, ", ")
            && (p.keepalive > 0 ==> |ls| == 4 && ls[3] == "PersistentKeepalive" + " = " + Itoa(p.keepalive))
            && (p.keepalive <= 0 ==> |ls| == 3)
  {
    hide Itoa, Join;
  }

  /** The file line by line: whom it is for, where the gateway routes to (the
      tunnel address without its prefix length, and the service port), and each
      entry under its wg-quick name. */
  lemma FileSays(s: State, host: string, prefixLength: string)
    requires Printable(s) && '/' !in host && s.wireGuard.address == host + ['/'] + prefixLength
    ensures var ls, p := Split(Unlines(Lines(s)), '\n'), s.wireGuard.peer;
            && |ls| > 8 && ls[0] == "# Tunnelo peer for " + s.subdomain
            && ls[2] == "# The gateway routes your" + " subdomain to " + host + " port " + Itoa(s.servicePort) + " \U{2014} make sure"
            && ls[4] == "" && ls[5] == "[Interface]"
            && ls[6] == "PrivateKey" + " = " + s.privateKey && ls[7] == "Address" + " = " + s.wireGuard.address
            && (s.wireGuard.mtu > 0 ==> ls[8] == "MTU" + " = " + Itoa(s.wireGuard.mtu))
            && var i := if s.wireGuard.mtu > 0 then 9 else 8;
               && |ls| > i + 4 && ls[i] == "" && ls[i + 1] == "[Peer]"
               && ls[i + 2] == "PublicKey" + " = " + p.publicKey && ls[i + 3] == "Endpoint" + " = " + p.endpoint
               && ls[i + 4] == "AllowedIPs" + " = " + Join(p.allowedIPs, ", ")
               && (p.keepalive > 0 ==> |ls| > i + 5 && ls[i + 5] == "PersistentKeepalive" + " = " + Itoa(p.keepalive))
  {
    LinesAreLines(s);
    LinesOfUnlines(Lines(s));
    CommentsSay(s, host, prefixLength);
    InterfaceSays(s);
    PeerSays(s.wireGuard.peer);
    hide Itoa, Join, Split, Unlines, Comments, InterfaceLines, PeerLines;
  }

  /** A key's text fits on a line of such a file. */
  lemma KeyIsOneLine(key: string)
    requires IsKey(key)
    ensures |key| == 44 && OneLine(key) && Trim(key) == key
  {
    TrimFixed(key);
    hide Trim;
  }
}
