/** internal/config/config.go: the TUNNELO_SERVICES list. */
module Config {
  import opened Basics
  import opened Text

  datatype ServiceSpec =
    ServiceSpec(host: string, port: int, url: string, healthPath: string, kind: string)

  datatype ParseError =
    | BarePortWithoutHost(token: string)
    | NotHostPort(token: string)
    | InvalidPort(token: string)
    | DuplicatePort(port: int)
    | NoServices

  // ---------- what a list means ----------

  /** The trimmed, non-blank tokens. */
  function NonBlank(tokens: seq<string>): (es: seq<string>) {
    if tokens == [] then []
    else
      var last := Trim(tokens[|tokens| - 1]);
      NonBlank(tokens[..|tokens| - 1]) + if last == "" then [] else [last]
  }

  function Entries(raw: string): seq<string> { NonBlank(Split(raw, ',')) }

  datatype Shape = Pair(host: string, port: string) | Bare(port: string) | Malformed

  function ShapeOf(entry: string): Shape {
    match SplitHostPort(entry)
    case Some(hp) => Pair(hp.host, hp.port)
    case None => if AllDigits(entry) then Bare(entry) else Malformed
  }

  /** The host in force at entry i: its own, or that of the nearest earlier
      host:port entry; "" when there is none. */
  function HostAt(es: seq<string>, i: nat): string
    requires i < |es|
  {
    match ShapeOf(es[i])
    case Pair(h, _) => h
    case _ => if i == 0 then "" else HostAt(es, i - 1)
  }

  function PortText(entry: string): string
    requires !ShapeOf(entry).Malformed?
  {
    ShapeOf(entry).port
  }

  predicate PortInRange(text: string) {
    var p := Atoi(text);
    p.Some? && 1 <= p.value <= 65535
  }

  predicate EntryOk(es: seq<string>, i: nat)
    requires i < |es|
  {
    && !ShapeOf(es[i]).Malformed?
    && (ShapeOf(es[i]).Bare? ==> HostAt(es, i) != "")
    && PortInRange(PortText(es[i]))
  }

  function PortAt(es: seq<string>, i: nat): int
    requires i < |es| && EntryOk(es, i)
  {
    Atoi(PortText(es[i])).value
  }

  /** The first n entries are fine and use distinct ports. */
  predicate Clean(es: seq<string>, n: nat)
    requires n <= |es|
  {
    && (forall i :: 0 <= i < n ==> EntryOk(es, i))
    && (forall i, j :: 0 <= i < j < n ==> PortAt(es, i) != PortAt(es, j))
  }

  predicate Acceptable(es: seq<string>) { es != [] && Clean(es, |es|) }

  function SpecAt(es: seq<string>, i: nat, healthPath: string): ServiceSpec
    requires i < |es| && EntryOk(es, i)
  {
    var host := HostAt(es, i);
    ServiceSpec(host, PortAt(es, i), "http://" + JoinHostPort(host, PortText(es[i])), healthPath, "")
  }

  /** Why entry i is refused once the entries before it have been accepted. */
  ghost predicate Refused(es: seq<string>, i: nat, e: ParseError)
    requires i < |es| && Clean(es, i)
  {
    match e
    case NotHostPort(t) => t == es[i] && ShapeOf(t).Malformed?
    case BarePortWithoutHost(t) => t == es[i] && ShapeOf(t).Bare? && HostAt(es, i) == ""
    case InvalidPort(t) =>
      && t == es[i] && !ShapeOf(t).Malformed? && !PortInRange(PortText(t))
      && (ShapeOf(t).Bare? ==> HostAt(es, i) != "")
    case DuplicatePort(p) =>
      EntryOk(es, i) && PortAt(es, i) == p && exists j :: 0 <= j < i && PortAt(es, j) == p
    case NoServices => false
  }

  /** The error is the one of the first entry that is not acceptable. */
  ghost predicate RefusedList(es: seq<string>, e: ParseError) {
    if es == [] then e == NoServices
    else exists i :: 0 <= i < |es| && Clean(es, i) && Refused(es, i, e)
  }

  /** raw is accepted and stands for exactly these specs. */
  predicate ParsesTo(raw: string, healthPath: string, specs: seq<ServiceSpec>) {
    var es := Entries(raw);
    && Acceptable(es)
    && |specs| == |es|
    && forall i :: 0 <= i < |es| ==> specs[i] == SpecAt(es, i, healthPath)
  }

  // ---------- the same, on the entries themselves ----------

  /** The host in force is that of the nearest entry that splits into host and
      port, or none. */
  lemma {:induction false} HostIs(es: seq<string>, i: nat, j: int)
    requires i < |es| && -1 <= j <= i
    requires j >= 0 ==> SplitHostPort(es[j]).Some?
    requires forall k :: j < k <= i ==> SplitHostPort(es[k]).None?
    ensures HostAt(es, i) == if j < 0 then "" else SplitHostPort(es[j]).value.host
  {
    if j < i && i > 0 {
      HostIs(es, i - 1, j);
    }
  }

  /** An entry is fine exactly when it is host:port, or digits after an entry
      with a non-empty host, and its port is a number from 1 to 65535. */
  lemma EntryOkIff(es: seq<string>, i: nat, j: int)
    requires i < |es| && -1 <= j <= i
    requires j >= 0 ==> SplitHostPort(es[j]).Some?
    requires forall k :: j < k <= i ==> SplitHostPort(es[k]).None?
    ensures EntryOk(es, i) <==>
            var text := if j == i then SplitHostPort(es[i]).value.port else es[i];
            && (j == i || (AllDigits(es[i]) && j >= 0 && SplitHostPort(es[j]).value.host != ""))
            && Atoi(text).Some? && 1 <= Atoi(text).value <= 65535
    ensures EntryOk(es, i) ==>
              Some(PortAt(es, i)) == Atoi(if j == i then SplitHostPort(es[i]).value.port else es[i])
  {
    HostIs(es, i, j);
    hide HostAt, SplitHostPort, Atoi;
  }

  /** What an error means for some entry of the list. */
  lemma RefusedMeans(es: seq<string>, e: ParseError)
    requires RefusedList(es, e)
    ensures match e
            case NoServices => es == []
            case NotHostPort(t) => t in es && SplitHostPort(t).None? && !AllDigits(t)
            case BarePortWithoutHost(t) => t in es && SplitHostPort(t).None? && AllDigits(t)
            case InvalidPort(t) =>
              && t in es
              && var p := Atoi(if SplitHostPort(t).Some? then SplitHostPort(t).value.port else t);
                 p.None? || p.value < 1 || p.value > 65535
            case DuplicatePort(p) =>
              exists i, j :: 0 <= j < i < |es| && EntryOk(es, i) && EntryOk(es, j) && PortAt(es, i) == p == PortAt(es, j)
  {
    hide HostAt, SplitHostPort, Atoi;
    if es != [] {
      var i :| 0 <= i < |es| && Clean(es, i) && Refused(es, i, e);
      if e.DuplicatePort? {
        var j :| 0 <= j < i && PortAt(es, j) == e.port;
        assert EntryOk(es, j);
      }
    }
  }

  lemma {:induction false} NonBlankConcat(a: seq<string>, b: seq<string>)
    ensures NonBlank(a + b) == NonBlank(a) + NonBlank(b)
  {
    if b == [] {
      assert a + b == a;
    } else {
      var ab, front, last := a + b, b[..|b| - 1], Trim(b[|b| - 1]);
      assert ab[|ab| - 1] == b[|b| - 1] && ab[..|ab| - 1] == a + front;
      assert NonBlank(ab) == NonBlank(a + front) + if last == "" then [] else [last];
      assert NonBlank(b) == NonBlank(front) + if last == "" then [] else [last];
      hide NonBlank, Trim;
      NonBlankConcat(a, front);
    }
  }

  lemma NonBlankOne(token: string)
    ensures NonBlank([token]) == if Trim(token) == "" then [] else [Trim(token)]
  {
    assert [token][..0] == [] && NonBlank([]) == [];
    hide Trim;
  }

  lemma EntriesAre(tokens: seq<string>)
    requires tokens != [] && CommaFree(tokens)
    ensures Entries(Join(tokens, [','])) == NonBlank(tokens)
  {
    SplitUndoesJoin(tokens, ',');
    hide NonBlank, Split, Join;
  }

  lemma NonBlankMiddle(a: seq<string>, token: string, b: seq<string>)
    ensures NonBlank(a + [token] + b) ==
            NonBlank(a) + (if Trim(token) == "" then [] else [Trim(token)]) + NonBlank(b)
  {
    NonBlankOne(token);
    hide NonBlank, Trim;
    NonBlankConcat(a + [token], b);
    NonBlankConcat(a, [token]);
  }

  predicate CommaFree(tokens: seq<string>) {
    forall i :: 0 <= i < |tokens| ==> ',' !in tokens[i]
  }

  lemma CommaFreeConcat(a: seq<string>, b: seq<string>)
    requires CommaFree(a) && CommaFree(b)
    ensures CommaFree(a + b)
  {
    forall i | 0 <= i < |a + b|
      ensures ',' !in (a + b)[i]
    {
      assert (a + b)[i] == if i < |a| then a[i] else b[i - |a|];
    }
  }

  /** Blank tokens count for nothing, and a visible one for its trimmed text,
      wherever it stands. */
  lemma BlankTokensSkipped(a: seq<string>, token: string, b: seq<string>)
    requires CommaFree(a) && CommaFree([token]) && CommaFree(b) && a + b != []
    ensures Trim(token) == "" ==> Entries(Join(a + [token] + b, [','])) == Entries(Join(a + b, [',']))
    ensures Trim(token) != "" ==>
              Entries(Join(a + [token] + b, [','])) == NonBlank(a) + [Trim(token)] + NonBlank(b)
  {
    hide CommaFree, NonBlank, Trim, Entries, Join;
    CommaFreeConcat(a, [token]);
    CommaFreeConcat(a + [token], b);
    CommaFreeConcat(a, b);
    EntriesAre(a + [token] + b);
    EntriesAre(a + b);
    NonBlankMiddle(a, token, b);
    NonBlankConcat(a, b);
  }

  // ---------- the code ----------

  method IsAllDigits(s: string) returns (ok: bool)
    ensures ok == AllDigits(s)
    ensures ok <==> s != "" && forall i :: 0 <= i < |s| ==> '0' <= s[i] <= '9'
  {
    if s == "" {
      return false;
    }
    for i := 0 to |s|
      invariant forall k :: 0 <= k < i ==> IsDigit(s[k])
    {
      if s[i] < '0' || s[i] > '9' {
        return false;
      }
    }
    return true;
  }

  method ParseServices(raw: string, healthPath: string) returns (r: Result<seq<ServiceSpec>, ParseError>)
    ensures r.Success? <==> Acceptable(Entries(raw))
    ensures r.Success? ==> ParsesTo(raw, healthPath, r.value)
    ensures r.Failure? ==> RefusedList(Entries(raw), r.error)
  {
    hide IsSpace, Trim, SplitHostPort, Atoi, JoinHostPort, Split, Clean, ReadSoFar, Seen, Upto, RefusedList;
    var tokens := Split(raw, ',');
    ghost var es := Entries(raw);
    var specs: seq<ServiceSpec> := [];
    var seenPorts: set<int> := {};
    var host := "";
    ReadNothing(es, healthPath);
    UptoEnds(tokens, 0);
    for t := 0 to |tokens|
      invariant |specs| <= |es| && Upto(tokens, t, |specs|)
      invariant ReadSoFar(es, specs, healthPath)
      invariant host == if specs == [] then "" else HostAt(es, |specs| - 1)
      invariant Seen(seenPorts, specs)
    {
      NextEntry(tokens, t, |specs|);
      var tok := Trim(tokens[t]);
      if tok == "" {
        continue;
      }
      ghost var n := |specs|;
      var portStr;
      var split := SplitHostPort(tok);
      var digits := IsAllDigits(tok);
      if split.Some? {
        host, portStr := split.value.host, split.value.port;
      } else if digits {
        if host == "" {
          Rejects(es, specs, healthPath, BarePortWithoutHost(tok));
          return Failure(BarePortWithoutHost(tok));
        }
        portStr := tok;
      } else {
        Rejects(es, specs, healthPath, NotHostPort(tok));
        return Failure(NotHostPort(tok));
      }
      assert host == HostAt(es, n) && portStr == PortText(es[n]);
      var port := Atoi(portStr);
      if port.None? || port.value < 1 || port.value > 65535 {
        Rejects(es, specs, healthPath, InvalidPort(tok));
        return Failure(InvalidPort(tok));
      }
      if port.value in seenPorts {
        RejectsDuplicate(es, specs, healthPath, seenPorts);
        return Failure(DuplicatePort(port.value));
      }
      var spec := ServiceSpec(host, port.value, "http://" + JoinHostPort(host, portStr), healthPath, "");
      SeenOneMore(seenPorts, specs, spec);
      ReadsOne(es, specs, healthPath, spec);
      seenPorts := seenPorts + {port.value};
      specs := specs + [spec];
    }
    UptoEnds(tokens, |specs|);
    if |specs| == 0 {
      NothingToRead(es);
      return Failure(NoServices);
    }
    AllRead(es, specs, healthPath);
    return Success(specs);
  }

  ghost predicate ReadSoFar(es: seq<string>, specs: seq<ServiceSpec>, healthPath: string) {
    && |specs| <= |es|
    && (forall i :: 0 <= i < |specs| ==> EntryOk(es, i) && specs[i] == SpecAt(es, i, healthPath))
    && (forall i, j :: 0 <= i < j < |specs| ==> specs[i].port != specs[j].port)
  }

  /** seenPorts holds the ports read so far. */
  ghost predicate Seen(ports: set<int>, specs: seq<ServiceSpec>) {
    && (forall i :: 0 <= i < |specs| ==> specs[i].port in ports)
    && (forall p :: p in ports ==> exists i :: 0 <= i < |specs| && specs[i].port == p)
  }

  lemma SeenOneMore(ports: set<int>, specs: seq<ServiceSpec>, spec: ServiceSpec)
    requires Seen(ports, specs)
    ensures Seen(ports + {spec.port}, specs + [spec])
    ensures spec.port !in ports ==> forall i :: 0 <= i < |specs| ==> specs[i].port != spec.port
  {
    var after := specs + [spec];
    assert after[|specs|] == spec;
    assert forall i :: 0 <= i < |specs| ==> after[i] == specs[i];
  }

  lemma ReadIsClean(es: seq<string>, specs: seq<ServiceSpec>, healthPath: string)
    requires ReadSoFar(es, specs, healthPath)
    ensures Clean(es, |specs|)
  {
    hide EntryOk, HostAt;
    assert forall i :: 0 <= i < |specs| ==> PortAt(es, i) == specs[i].port;
  }

  lemma ReadNothing(es: seq<string>, healthPath: string)
    ensures ReadSoFar(es, [], healthPath) && Seen({}, [])
  {
  }

  lemma NothingToRead(es: seq<string>)
    requires es == []
    ensures !Acceptable(es) && RefusedList(es, NoServices)
  {
  }

  lemma AllRead(es: seq<string>, specs: seq<ServiceSpec>, healthPath: string)
    requires ReadSoFar(es, specs, healthPath) && |specs| == |es| && es != []
    ensures Acceptable(es) && forall i :: 0 <= i < |es| ==> specs[i] == SpecAt(es, i, healthPath)
  {
    ReadIsClean(es, specs, healthPath);
  }

  lemma ReadsOne(es: seq<string>, specs: seq<ServiceSpec>, healthPath: string, spec: ServiceSpec)
    requires ReadSoFar(es, specs, healthPath) && |specs| < |es| && EntryOk(es, |specs|)
    requires spec == SpecAt(es, |specs|, healthPath)
    requires forall i :: 0 <= i < |specs| ==> specs[i].port != spec.port
    ensures ReadSoFar(es, specs + [spec], healthPath)
  {
    hide EntryOk, HostAt, SpecAt;
  }

  lemma Rejects(es: seq<string>, specs: seq<ServiceSpec>, healthPath: string, e: ParseError)
    requires ReadSoFar(es, specs, healthPath) && |specs| < |es| && !EntryOk(es, |specs|)
    requires Clean(es, |specs|) ==> Refused(es, |specs|, e)
    ensures !Acceptable(es) && RefusedList(es, e)
  {
    ReadIsClean(es, specs, healthPath);
    hide EntryOk, HostAt, Atoi, Refused;
  }

  lemma PortRead(es: seq<string>, specs: seq<ServiceSpec>, healthPath: string, i: nat)
    requires ReadSoFar(es, specs, healthPath) && i < |specs|
    ensures EntryOk(es, i) && PortAt(es, i) == specs[i].port
  {
    hide EntryOk, HostAt;
  }

  lemma DuplicateRefused(es: seq<string>, i: nat, n: nat)
    requires i < n < |es| && Clean(es, n) && EntryOk(es, n)
    requires PortAt(es, i) == PortAt(es, n)
    ensures !Acceptable(es) && RefusedList(es, DuplicatePort(PortAt(es, n)))
  {
    hide EntryOk, HostAt, PortAt;
    assert Refused(es, n, DuplicatePort(PortAt(es, n)));
  }

  lemma RejectsDuplicate(es: seq<string>, specs: seq<ServiceSpec>, healthPath: string, ports: set<int>)
    requires ReadSoFar(es, specs, healthPath) && |specs| < |es| && EntryOk(es, |specs|)
    requires Seen(ports, specs) && PortAt(es, |specs|) in ports
    ensures !Acceptable(es) && RefusedList(es, DuplicatePort(PortAt(es, |specs|)))
  {
    ReadIsClean(es, specs, healthPath);
    var i :| 0 <= i < |specs| && specs[i].port == PortAt(es, |specs|);
    PortRead(es, specs, healthPath, i);
    hide *;
    DuplicateRefused(es, i, |specs|);
  }

  /** The first t tokens hold the first n entries. */
  ghost predicate Upto(tokens: seq<string>, t: nat, n: nat)
    requires t <= |tokens|
  {
    n <= |NonBlank(tokens)| && NonBlank(tokens[..t]) == NonBlank(tokens)[..n]
  }

  lemma UptoEnds(tokens: seq<string>, n: nat)
    ensures Upto(tokens, 0, 0)
    ensures Upto(tokens, |tokens|, n) ==> n == |NonBlank(tokens)|
  {
    assert tokens[..|tokens|] == tokens;
  }

  lemma NonBlankStep(tokens: seq<string>, t: nat)
    requires t < |tokens|
    ensures NonBlank(tokens[..t + 1]) == NonBlank(tokens[..t]) + if Trim(tokens[t]) == "" then [] else [Trim(tokens[t])]
  {
    hide Trim;
    assert tokens[..t + 1][..t] == tokens[..t];
  }

  lemma PrefixTake(whole: seq<string>, part: seq<string>)
    requires part <= whole
    ensures part == whole[..|part|]
  {
  }

  lemma NextEntry(tokens: seq<string>, t: nat, n: nat)
    requires t < |tokens| && Upto(tokens, t, n)
    ensures Trim(tokens[t]) == "" ==> Upto(tokens, t + 1, n)
    ensures Trim(tokens[t]) != "" ==>
              n < |NonBlank(tokens)| && NonBlank(tokens)[n] == Trim(tokens[t]) && Upto(tokens, t + 1, n + 1)
  {
    hide NonBlank, Trim;
    EntriesExtend(tokens, t);
    NonBlankStep(tokens, t);
    PrefixTake(NonBlank(tokens), NonBlank(tokens[..t + 1]));
  }

  lemma {:induction false} EntriesExtend(tokens: seq<string>, t: nat)
    requires t < |tokens|
    ensures NonBlank(tokens[..t + 1]) <= NonBlank(tokens)
    decreases |tokens| - t
  {
    if t + 1 == |tokens| {
      assert tokens[..t + 1] == tokens;
    } else {
      EntriesExtend(tokens, t + 1);
      assert tokens[..t + 2][..t + 1] == tokens[..t + 1];
    }
  }

  // ---------- printing a list and reading it back ----------

  /** Entry i as host:port, or as the bare port when `short[i]`. */
  function Token(spec: ServiceSpec, short: bool): string {
    if short then Itoa(spec.port) else JoinHostPort(spec.host, Itoa(spec.port))
  }

  function Tokens(specs: seq<ServiceSpec>, short: seq<bool>): (ts: seq<string>)
    requires |short| == |specs|
  {
    seq(|specs|, i requires 0 <= i < |specs| => Token(specs[i], short[i]))
  }

  function Print(specs: seq<ServiceSpec>): string {
    Join(Tokens(specs, seq(|specs|, i => false)), ",")
  }

  /** A non-empty host that repeats the one before it is dropped. */
  function Repeats(specs: seq<ServiceSpec>): (short: seq<bool>)
    ensures |short| == |specs|
  {
    seq(|specs|, i requires 0 <= i < |specs| =>
      i > 0 && specs[i].host == specs[i - 1].host && specs[i].host != "")
  }

  function PrintShort(specs: seq<ServiceSpec>): string {
    Join(Tokens(specs, Repeats(specs)), ",")
  }

  /** Hosts that survive the trip through the list syntax. */
  predicate PlainHost(h: string) {
    && ',' !in h && NoBrackets(h)
    && (h == "" || ':' in h || !IsSpace(h[0]))
  }

  predicate CanonicalSpec(s: ServiceSpec, healthPath: string) {
    && 1 <= s.port <= 65535
    && s.url == "http://" + JoinHostPort(s.host, Itoa(s.port))
    && s.healthPath == healthPath && s.kind == ""
  }

  predicate Canonical(specs: seq<ServiceSpec>, healthPath: string) {
    && specs != []
    && (forall i :: 0 <= i < |specs| ==> CanonicalSpec(specs[i], healthPath))
    && (forall i, j :: 0 <= i < j < |specs| ==> specs[i].port != specs[j].port)
  }

  lemma {:induction false} NonBlankOf(tokens: seq<string>)
    requires forall i :: 0 <= i < |tokens| ==> Trim(tokens[i]) != ""
    ensures |NonBlank(tokens)| == |tokens|
    ensures forall i :: 0 <= i < |tokens| ==> NonBlank(tokens)[i] == Trim(tokens[i])
  {
    hide Trim;
    if tokens != [] {
      NonBlankOf(tokens[..|tokens| - 1]);
    }
  }

  /** Every comma-free token list with visible tokens is recovered, trimmed. */
  lemma EntriesOfJoin(tokens: seq<string>)
    requires tokens != []
    requires forall i :: 0 <= i < |tokens| ==> ',' !in tokens[i] && Trim(tokens[i]) != ""
    ensures var es := Entries(Join(tokens, ","));
            |es| == |tokens| && forall i :: 0 <= i < |tokens| ==> es[i] == Trim(tokens[i])
  {
    SplitUndoesJoin(tokens, ',');
    NonBlankOf(tokens);
  }

  lemma NoColon(s: string)
    requires ':' !in s
    ensures SplitHostPort(s).None?
  {
  }

  /** What printing makes of a spec: visible at both ends, no comma. */
  lemma TokenVisibleEnds(s: ServiceSpec, short: bool)
    requires PlainHost(s.host) && 1 <= s.port <= 65535
    ensures var t := Token(s, short);
            t != "" && ',' !in t && !IsSpace(t[0]) && !IsSpace(t[|t| - 1])
  {
    var p := Itoa(s.port);
    var t := Token(s, short);
    hide Itoa, IsSpace;
    assert t[|t| - 1] == p[|p| - 1];
    Visible(p[|p| - 1]);
    Visible(p[0]);
    Visible(':');
    Visible('[');
    if !short {
      assert t[0] == if ':' in s.host then '[' else if s.host == "" then ':' else s.host[0];
    }
  }

  lemma TokenShape(s: ServiceSpec, short: bool)
    requires PlainHost(s.host) && 1 <= s.port <= 65535
    ensures var t := Token(s, short);
            && ',' !in t && Trim(t) == t && t != ""
            && ShapeOf(t) == if short then Bare(t) else Pair(s.host, Itoa(s.port))
  {
    TokenVisibleEnds(s, short);
    hide IsSpace, SplitHostPort, JoinHostPort, Digits;
    TrimFixed(Token(s, short));
    hide Trim;
    if short {
      NoColon(Token(s, short));
    } else {
      SplitUndoesJoinHostPort(s.host, Itoa(s.port));
    }
  }

  lemma {:induction false} HostsInherited(specs: seq<ServiceSpec>, short: seq<bool>, es: seq<string>, i: nat)
    requires |short| == |specs| == |es| && i < |specs|
    requires forall k :: 0 <= k < |specs| ==>
               ShapeOf(es[k]) == if short[k] then Bare(es[k]) else Pair(specs[k].host, Itoa(specs[k].port))
    requires forall k :: 0 <= k < |specs| && short[k] ==> k > 0 && specs[k].host == specs[k - 1].host
    ensures HostAt(es, i) == specs[i].host
  {
    if short[i] {
      HostsInherited(specs, short, es, i - 1);
    }
  }

  /** Each printed token has the shape it was printed in, and its port reads
      back. */
  lemma TokensShapes(specs: seq<ServiceSpec>, short: seq<bool>)
    requires |short| == |specs|
    requires forall i :: 0 <= i < |specs| ==> PlainHost(specs[i].host) && 1 <= specs[i].port <= 65535
    ensures forall i :: 0 <= i < |specs| ==>
              var t := Token(specs[i], short[i]);
              && ',' !in t && Trim(t) == t && t != ""
              && ShapeOf(t) == (if short[i] then Bare(t) else Pair(specs[i].host, Itoa(specs[i].port)))
              && Atoi(Itoa(specs[i].port)) == Some(specs[i].port)
  {
    hide Token, Trim, ShapeOf, PlainHost, Itoa, Atoi;
    forall i | 0 <= i < |specs|
      ensures var t := Token(specs[i], short[i]);
              && ',' !in t && Trim(t) == t && t != ""
              && ShapeOf(t) == (if short[i] then Bare(t) else Pair(specs[i].host, Itoa(specs[i].port)))
              && Atoi(Itoa(specs[i].port)) == Some(specs[i].port)
    {
      TokenShape(specs[i], short[i]);
      AtoiUndoesItoa(specs[i].port);
    }
  }

  /** Entries of the right shapes are entries of these specs. */
  lemma ShapesParse(es: seq<string>, specs: seq<ServiceSpec>, short: seq<bool>, healthPath: string)
    requires Canonical(specs, healthPath) && |short| == |specs| == |es|
    requires forall k :: 0 <= k < |specs| && short[k] ==>
               k > 0 && specs[k].host == specs[k - 1].host && specs[k].host != ""
    requires forall i :: 0 <= i < |specs| ==>
               && ShapeOf(es[i]) == (if short[i] then Bare(es[i]) else Pair(specs[i].host, Itoa(specs[i].port)))
               && (short[i] ==> es[i] == Itoa(specs[i].port))
               && Atoi(Itoa(specs[i].port)) == Some(specs[i].port)
    ensures Acceptable(es) && forall i :: 0 <= i < |es| ==> specs[i] == SpecAt(es, i, healthPath)
  {
    hide ShapeOf, Itoa, Atoi, JoinHostPort;
    forall i | 0 <= i < |specs|
      ensures EntryOk(es, i) && specs[i] == SpecAt(es, i, healthPath) && PortAt(es, i) == specs[i].port
    {
      HostsInherited(specs, short, es, i);
    }
    hide EntryOk, SpecAt, PortAt, HostAt;
  }

  lemma TokensParse(specs: seq<ServiceSpec>, short: seq<bool>, healthPath: string)
    requires Canonical(specs, healthPath) && |short| == |specs|
    requires forall i :: 0 <= i < |specs| ==> PlainHost(specs[i].host)
    requires forall k :: 0 <= k < |specs| && short[k] ==>
               k > 0 && specs[k].host == specs[k - 1].host && specs[k].host != ""
    ensures ParsesTo(Join(Tokens(specs, short), ","), healthPath, specs)
  {
    var ts := Tokens(specs, short);
    assert forall i :: 0 <= i < |specs| && short[i] ==> ts[i] == Itoa(specs[i].port);
    hide Token, Trim, ShapeOf, PlainHost, Itoa, Atoi, Entries, Join;
    TokensShapes(specs, short);
    EntriesOfJoin(ts);
    assert Entries(Join(ts, ",")) == ts;
    ShapesParse(ts, specs, short, healthPath);
    hide Acceptable, SpecAt, Canonical;
  }

  /** Hosts read from a list never hold a comma or a bracket, and one that was
      not bracketed never starts with a space. */
  lemma {:induction false} ParsedHost(raw: string, i: nat)
    requires i < |Entries(raw)|
    ensures var h := HostAt(Entries(raw), i); ',' !in h && NoBrackets(h)
  {
    var es := Entries(raw);
    NonBlankComma(Split(raw, ','), i);
    if ShapeOf(es[i]).Pair? {
      SplitParts(es[i]);
    } else if i > 0 {
      ParsedHost(raw, i - 1);
    }
  }

  lemma {:induction false} NonBlankComma(tokens: seq<string>, i: nat)
    requires forall k :: 0 <= k < |tokens| ==> ',' !in tokens[k]
    requires i < |NonBlank(tokens)|
    ensures ',' !in NonBlank(tokens)[i]
  {
    var front := tokens[..|tokens| - 1];
    if i < |NonBlank(front)| {
      NonBlankComma(front, i);
    }
  }

  lemma UnbracketedHost(raw: string, i: nat, token: string)
    requires i < |Entries(raw)| && Entries(raw)[i] == Trim(token) && NoBrackets(token) && ':' in token
    requires ShapeOf(Trim(token)) != Malformed
    ensures var h := HostAt(Entries(raw), i); h == "" || !IsSpace(h[0])
  {
    var e := Trim(token);
    TrimKeeps(token, ':');
    assert ShapeOf(e).Pair?;
    SplitParts(e);
    var h := ShapeOf(e).host;
    assert e[0] in e;
    assert h != "" ==> h[0] == e[0];
  }

  lemma TokenVisible(spec: ServiceSpec)
    requires ',' !in spec.host
    ensures ',' !in Token(spec, false) && Trim(Token(spec, false)) != ""
  {
    assert ':' in Token(spec, false);
    Visible(':');
    hide Trim, IsSpace;
    TrimKeeps(Token(spec, false), ':');
  }

  lemma PrintedEntries(specs: seq<ServiceSpec>, es: seq<string>)
    requires specs != [] && es == Entries(Print(specs))
    requires forall i :: 0 <= i < |specs| ==> ',' !in specs[i].host
    ensures |es| == |specs|
    ensures forall i :: 0 <= i < |specs| ==> es[i] == Trim(Token(specs[i], false))
  {
    hide Entries, Trim, IsSpace, Itoa, JoinHostPort;
    var ts := Tokens(specs, seq(|specs|, i => false));
    forall i | 0 <= i < |specs|
      ensures ',' !in ts[i] && Trim(ts[i]) != ""
    {
      TokenVisible(specs[i]);
    }
    EntriesOfJoin(ts);
  }

  lemma PrintedEntry(spec: ServiceSpec, healthPath: string, raw: string, i: nat)
    requires i < |Entries(raw)| && EntryOk(Entries(raw), i)
    requires spec == SpecAt(Entries(raw), i, healthPath)
    requires NoBrackets(spec.host) && ',' !in spec.host
    requires Entries(raw)[i] == Trim(Token(spec, false))
    ensures PlainHost(spec.host) && CanonicalSpec(spec, healthPath)
  {
    hide Entries, Trim, IsSpace, SplitHostPort;
    if spec.host != "" && ':' !in spec.host {
      UnbracketedHost(raw, i, Token(spec, false));
    }
    TokenShape(spec, false);
  }

  /** Printing a list of specs as host:port entries and parsing it gives the
      same list back exactly when the specs are in the parser's own form and
      every host is plain. */
  lemma PrintThenParse(specs: seq<ServiceSpec>, healthPath: string)
    ensures ParsesTo(Print(specs), healthPath, specs)
        <==> Canonical(specs, healthPath) && forall i :: 0 <= i < |specs| ==> PlainHost(specs[i].host)
  {
    if Canonical(specs, healthPath) && forall i :: 0 <= i < |specs| ==> PlainHost(specs[i].host) {
      TokensParse(specs, seq(|specs|, i => false), healthPath);
    }
    if ParsesTo(Print(specs), healthPath, specs) {
      PrintedIsCanonical(specs, healthPath, Print(specs));
    }
  }

  lemma PrintedIsCanonical(specs: seq<ServiceSpec>, healthPath: string, raw: string)
    requires raw == Print(specs) && ParsesTo(raw, healthPath, specs)
    ensures Canonical(specs, healthPath)
    ensures forall i :: 0 <= i < |specs| ==> PlainHost(specs[i].host)
  {
    hide Entries, Print, Trim, IsSpace, SplitHostPort, HostAt;
    var es := Entries(raw);
    forall i | 0 <= i < |specs|
      ensures ',' !in specs[i].host && NoBrackets(specs[i].host)
    {
      ParsedHost(raw, i);
    }
    PrintedEntries(specs, es);
    forall i | 0 <= i < |specs|
      ensures PlainHost(specs[i].host) && CanonicalSpec(specs[i], healthPath)
    {
      PrintedEntry(specs[i], healthPath, raw, i);
    }
  }

  /** The shorthand, which drops a non-empty host equal to the one before it,
      means the same list as the full form. */
  lemma ShorthandParses(specs: seq<ServiceSpec>, healthPath: string)
    requires Canonical(specs, healthPath)
    requires forall i :: 0 <= i < |specs| ==> PlainHost(specs[i].host)
    ensures ParsesTo(PrintShort(specs), healthPath, specs)
  {
    TokensParse(specs, Repeats(specs), healthPath);
  }

  /** In an accepted list a bare port takes the host of the nearest earlier
      host:port entry, and that host is not empty. */
  lemma {:induction false} BarePortInherits(es: seq<string>, i: nat) returns (j: nat)
    requires Acceptable(es) && i < |es|
    ensures j <= i && ShapeOf(es[j]).Pair? && ShapeOf(es[j]).host == HostAt(es, i)
    ensures forall k :: j < k <= i ==> ShapeOf(es[k]).Bare?
    ensures j < i ==> ShapeOf(es[j]).host != ""
  {
    hide SplitHostPort, Atoi;
    j := i;
    assert EntryOk(es, i);
    if ShapeOf(es[i]).Bare? {
      hide Acceptable, ShapeOf;
      j := BarePortInherits(es, i - 1);
    }
  }

  lemma JoinInjective(host: string, p: string, q: string)
    requires JoinHostPort(host, p) == JoinHostPort(host, q)
    ensures p == q
  {
    var prefix := if ':' in host then "[" + host + "]:" else host + ":";
    assert p == JoinHostPort(host, p)[|prefix|..];
    assert q == JoinHostPort(host, q)[|prefix|..];
  }

  /** The URL carries the port as written, so it is the canonical one exactly
      when the port was written canonically. */
  lemma UrlIsCanonical(es: seq<string>, i: nat, healthPath: string)
    requires i < |es| && EntryOk(es, i)
    ensures var s := SpecAt(es, i, healthPath);
            s.url == "http://" + JoinHostPort(s.host, Itoa(s.port)) <==> PortText(es[i]) == Itoa(s.port)
  {
    var s := SpecAt(es, i, healthPath);
    var written, canonical := JoinHostPort(s.host, PortText(es[i])), JoinHostPort(s.host, Itoa(s.port));
    assert written == ("http://" + written)[7..];
    assert canonical == ("http://" + canonical)[7..];
    if written == canonical {
      JoinInjective(s.host, PortText(es[i]), Itoa(s.port));
    }
  }

  const PADDED := "080"

  lemma PaddedPort()
    ensures AllDigits(PADDED) && Atoi(PADDED) == Some(80) && |Itoa(80)| == 2 && |PADDED| == 3
  {
    assert "080"[..2] == "08" && "08"[..1] == "0" && "0"[..0] == "";
    assert DigitsValue("0") == 0 && DigitsValue("08") == 8;
  }

  lemma OneEntry(raw: string)
    requires raw != "" && ',' !in raw && !IsSpace(raw[0]) && !IsSpace(raw[|raw| - 1])
    ensures Entries(raw) == [raw]
  {
    TrimFixed(raw);
    EntriesOfJoin([raw]);
  }

  /** For every plain host, a port written 080 is accepted as 80 but stays 080
      in the URL. */
  lemma PaddedPortInUrl(host: string, healthPath: string)
    requires PlainHost(host)
    ensures var raw := JoinHostPort(host, PADDED);
            && ParsesTo(raw, healthPath, [ServiceSpec(host, 80, "http://" + raw, healthPath, "")])
            && raw != JoinHostPort(host, Itoa(80))
  {
    var raw := JoinHostPort(host, PADDED);
    PaddedPort();
    PaddedEntry(host, PADDED);
    assert |raw| != |JoinHostPort(host, Itoa(80))|;
    hide Entries, Trim, IsSpace, SplitHostPort, Itoa, Atoi, JoinHostPort;
    OneEntryParses(raw, host, PADDED, 80, healthPath);
  }

  lemma OneEntryParses(raw: string, host: string, text: string, p: int, healthPath: string)
    requires Entries(raw) == [raw] && ShapeOf(raw) == Pair(host, text)
    requires Atoi(text) == Some(p) && 1 <= p <= 65535
    ensures ParsesTo(raw, healthPath, [ServiceSpec(host, p, "http://" + JoinHostPort(host, text), healthPath, "")])
  {
    hide Entries, ShapeOf, Atoi, JoinHostPort;
  }

  lemma PaddedEntry(host: string, port: string)
    requires PlainHost(host) && AllDigits(port)
    ensures var raw := JoinHostPort(host, port);
            Entries(raw) == [raw] && ShapeOf(raw) == Pair(host, port)
  {
    var raw := JoinHostPort(host, port);
    Visible(port[|port| - 1]);
    Visible(':');
    Visible('[');
    hide IsSpace, Trim, SplitHostPort;
    assert raw[0] == if ':' in host then '[' else if host == "" then ':' else host[0];
    assert raw[|raw| - 1] == port[|port| - 1];
    SplitUndoesJoinHostPort(host, port);
    OneEntry(raw);
  }
}
