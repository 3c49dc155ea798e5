/** The string routines of Go's standard library that the agent relies on:
    strings.Split, strings.Join, strings.TrimSpace, strconv, and the host:port
    pair net.SplitHostPort / net.JoinHostPort. */
module Text {
  import opened Basics

  // ---------- splitting and joining ----------

  function Split(s: string, sep: char): (parts: seq<string>)
    ensures |parts| >= 1
    ensures forall i :: 0 <= i < |parts| ==> sep !in parts[i]
  {
    if s == "" then [""]
    else if s[0] == sep then [""] + Split(s[1..], sep)
    else
      var rest := Split(s[1..], sep);
      [[s[0]] + rest[0]] + rest[1..]
  }

  function Join(parts: seq<string>, sep: string): string {
    if parts == [] then ""
    else if |parts| == 1 then parts[0]
    else parts[0] + sep + Join(parts[1..], sep)
  }

  lemma {:induction false} SplitHead(a: string, sep: char, rest: string)
    requires sep !in a
    ensures Split(a, sep) == [a]
    ensures Split(a + [sep] + rest, sep) == [a] + Split(rest, sep)
  {
    if a == "" {
      assert a + [sep] + rest == [sep] + rest;
      assert ([sep] + rest)[1..] == rest;
    } else {
      SplitHead(a[1..], sep, rest);
      assert (a + [sep] + rest)[1..] == a[1..] + [sep] + rest;
      assert [a[0]] + a[1..] == a;
    }
  }

  lemma {:induction false} SplitUndoesJoin(parts: seq<string>, sep: char)
    requires parts != []
    requires forall i :: 0 <= i < |parts| ==> sep !in parts[i]
    ensures Split(Join(parts, [sep]), sep) == parts
  {
    if |parts| == 1 {
      SplitHead(parts[0], sep, "");
    } else {
      var rest := parts[1..];
      assert Join(parts, [sep]) == parts[0] + [sep] + Join(rest, [sep]);
      hide Split, Join;
      SplitUndoesJoin(rest, sep);
      SplitHead(parts[0], sep, Join(rest, [sep]));
      assert [parts[0]] + rest == parts;
    }
  }

  // ---------- trimming ----------

  /** The White_Space characters that strings.TrimSpace removes. */
  predicate IsSpace(c: char) {
    var n := c as int;
    || 9 <= n <= 13 || n == 0x20 || n == 0x85 || n == 0xA0 || n == 0x1680
    || 0x2000 <= n <= 0x200A || n == 0x2028 || n == 0x2029 || n == 0x202F
    || n == 0x205F || n == 0x3000
  }

  /** The first position at or after i that is not a space. */
  function SkipSpaces(s: string, i: nat): (r: nat)
    requires i <= |s|
    ensures i <= r <= |s|
    decreases |s| - i
  {
    if i < |s| && IsSpace(s[i]) then SkipSpaces(s, i + 1) else i
  }

  /** The end of s[..i] once the spaces at its end are dropped. */
  function DropSpaces(s: string, i: nat): (r: nat)
    requires i <= |s|
    ensures r <= i
  {
    if i > 0 && IsSpace(s[i - 1]) then DropSpaces(s, i - 1) else i
  }

  /** strings.TrimSpace. */
  function Trim(s: string): string {
    var from, to := SkipSpaces(s, 0), DropSpaces(s, |s|);
    if from < to then s[from..to] else ""
  }

  lemma Visible(c: char)
    requires IsDigit(c) || c == ':' || c == '['
    ensures !IsSpace(c)
  {
  }

  lemma TrimFixed(s: string)
    requires s != "" ==> !IsSpace(s[0]) && !IsSpace(s[|s| - 1])
    ensures Trim(s) == s
  {
  }

  lemma {:induction false} SkipSpacesStops(s: string, i: nat, k: nat)
    requires i <= k < |s| && !IsSpace(s[k])
    ensures SkipSpaces(s, i) <= k && !IsSpace(s[SkipSpaces(s, i)])
    decreases |s| - i
  {
    if IsSpace(s[i]) {
      SkipSpacesStops(s, i + 1, k);
    }
  }

  lemma {:induction false} DropSpacesStops(s: string, i: nat, k: nat)
    requires k < i <= |s| && !IsSpace(s[k])
    ensures DropSpaces(s, i) > k
  {
    if IsSpace(s[i - 1]) {
      DropSpacesStops(s, i - 1, k);
    }
  }

  /** Trimming keeps every visible character and starts at one. */
  lemma TrimKeeps(s: string, c: char)
    requires c in s && !IsSpace(c)
    ensures c in Trim(s) && !IsSpace(Trim(s)[0])
    ensures forall d :: d in Trim(s) ==> d in s
  {
    var k :| 0 <= k < |s| && s[k] == c;
    SkipSpacesStops(s, 0, k);
    DropSpacesStops(s, |s|, k);
    assert Trim(s)[k - SkipSpaces(s, 0)] == c;
  }

  // ---------- numbers ----------

  predicate IsDigit(c: char) { '0' <= c <= '9' }

  predicate AllDigits(s: string) {
    s != "" && forall i :: 0 <= i < |s| ==> IsDigit(s[i])
  }

  function DigitChar(d: nat): (c: char)
    requires d < 10
    ensures IsDigit(c) && DigitValue(c) == d
  {
    d as char + '0'
  }

  function Digits(n: nat): (s: string)
    ensures AllDigits(s)
  {
    if n < 10 then [DigitChar(n)] else Digits(n / 10) + [DigitChar(n % 10)]
  }

  /** strconv.Itoa, and fmt's %d. */
  function Itoa(n: int): (s: string)
    ensures s != ""
    ensures forall c :: c in s ==> IsDigit(c) || c == '-'
    ensures n >= 0 ==> AllDigits(s)
  {
    if n < 0 then "-" + Digits(-n) else Digits(n)
  }

  function DigitValue(c: char): (d: nat)
    requires IsDigit(c)
  {
    c as int - '0' as int
  }

  function DigitsValue(s: string): (n: nat)
    requires forall i :: 0 <= i < |s| ==> IsDigit(s[i])
  {
    if s == "" then 0
    else
      assert IsDigit(s[|s| - 1]);
      10 * DigitsValue(s[..|s| - 1]) + DigitValue(s[|s| - 1])
  }

  /** strconv.Atoi: an optional sign and at least one digit. Go also fails
      beyond 64 bits; every caller here rejects such values anyway. */
  function Atoi(s: string): Option<int> {
    var body := if s != "" && (s[0] == '+' || s[0] == '-') then s[1..] else s;
    if !AllDigits(body) then None
    else if s[0] == '-' then Some(0 - DigitsValue(body))
    else Some(DigitsValue(body))
  }

  lemma {:induction false} ValueOfDigits(n: nat)
    ensures DigitsValue(Digits(n)) == n
  {
    var s := Digits(n);
    if n < 10 {
      assert s[..0] == "";
    } else {
      ValueOfDigits(n / 10);
      assert s[..|s| - 1] == Digits(n / 10);
    }
  }

  lemma {:induction false} ValueOfDigit(s: string, c: char)
    requires AllDigits(s) && IsDigit(c)
    ensures DigitsValue(s + [c]) == 10 * DigitsValue(s) + (c as int - '0' as int)
  {
    var t := s + [c];
    assert t[..|t| - 1] == s && t[|t| - 1] == c;
  }

  /** What strconv.Atoi reads: decimal positions, a sign, leading zeros; and
      nothing without a digit or with any other character. */
  lemma AtoiReads(s: string, c: char)
    ensures '0' <= c <= '9' ==> Atoi([c]) == Some(c as int - '0' as int)
    ensures AllDigits(s) && '0' <= c <= '9' ==>
              Atoi(s).Some? && Atoi(s + [c]) == Some(10 * Atoi(s).value + (c as int - '0' as int))
    ensures AllDigits(s) ==> Atoi("+" + s) == Atoi(s) && Atoi("-" + s) == Some(0 - Atoi(s).value)
    ensures Atoi("") == Atoi("+") == Atoi("-") == None
    ensures !('0' <= c <= '9') && c in s && s != "" && (c == s[0] ==> c != '+' && c != '-') ==> Atoi(s) == None
  {
    if '0' <= c <= '9' {
      assert [c][..0] == "" && DigitsValue([c]) == c as int - '0' as int;
      if AllDigits(s) {
        ValueOfDigit(s, c);
        assert (s + [c])[0] == s[0];
      }
    }
    assert ("+" + s)[1..] == s && ("-" + s)[1..] == s;
    hide DigitsValue;
  }

  /** Printing a number and reading it back. */
  lemma AtoiUndoesItoa(n: int)
    ensures Atoi(Itoa(n)) == Some(n)
  {
    var digits := Digits(if n < 0 then -n else n);
    ValueOfDigits(if n < 0 then -n else n);
    assert IsDigit(digits[0]);
    hide Digits, DigitsValue;
    if n < 0 {
      assert Itoa(n)[1..] == digits;
    }
  }

  // ---------- host:port ----------

  /** The first position at or after n that holds c, or -1. */
  function IndexOf(s: string, c: char, n: nat := 0): (i: int)
    requires n <= |s|
    ensures i == -1 || (n <= i < |s| && s[i] == c)
    ensures forall k :: n <= k < |s| && (i < 0 || k < i) ==> s[k] != c
    decreases |s| - n
  {
    if n == |s| then -1 else if s[n] == c then n else IndexOf(s, c, n + 1)
  }

  /** The last position before n that holds c, or -1. */
  function LastIndexOf(s: string, c: char, n: nat): (i: int)
    requires n <= |s|
    ensures i == -1 || (0 <= i < n && s[i] == c)
    ensures forall k :: i < k < n ==> s[k] != c
  {
    if n == 0 then -1 else if s[n - 1] == c then n - 1 else LastIndexOf(s, c, n - 1)
  }

  datatype HostPort = HostPort(host: string, port: string)

  /** net.SplitHostPort: the port follows the last colon; a leading '[' must be
      closed by the first ']' just before that colon; no other brackets, and
      no other colon in an unbracketed host. */
  function SplitHostPort(s: string): Option<HostPort> {
    var i := LastIndexOf(s, ':', |s|);
    if i < 0 then None
    else if s[0] == '[' then
      var end := IndexOf(s, ']');
      if end < 0 || end + 1 != i then None
      else if '[' in s[1..] || ']' in s[end + 1..] then None
      else Some(HostPort(s[1..end], s[i + 1..]))
    else if ':' in s[..i] || '[' in s || ']' in s then None
    else Some(HostPort(s[..i], s[i + 1..]))
  }

  /** net.JoinHostPort: hosts with a colon are bracketed
      (RFC 3986, section 3.2.2). */
  function JoinHostPort(host: string, port: string): string {
    if ':' in host then "[" + host + "]:" + port else host + ":" + port
  }

  predicate NoBrackets(s: string) { '[' !in s && ']' !in s }

  lemma NotAmong(s: string, part: string, from: nat, c: char)
    requires from + |part| <= |s| && part == s[from..from + |part|] && c !in s
    ensures c !in part
  {
    assert forall k :: 0 <= k < |part| ==> part[k] == s[from + k];
  }

  lemma BracketedText(s: string, end: nat)
    requires 0 < end < |s| - 1 && s[0] == '[' && s[end] == ']' && s[end + 1] == ':'
    ensures s == "[" + s[1..end] + "]:" + s[end + 2..]
  {
    assert "]:" == [']', ':'];
  }

  lemma BracketedParts(s: string)
    requires SplitHostPort(s).Some? && s[0] == '['
    ensures var hp := SplitHostPort(s).value;
            && NoBrackets(hp.host) && NoBrackets(hp.port) && ':' !in hp.port
            && s == "[" + hp.host + "]:" + hp.port
  {
    var i, end := LastIndexOf(s, ':', |s|), IndexOf(s, ']');
    var hp := SplitHostPort(s).value;
    assert end + 1 == i && hp.host == s[1..end] && hp.port == s[i + 1..];
    assert '[' !in s[1..] && ']' !in s[end + 1..];
    hide SplitHostPort, LastIndexOf, IndexOf;
    NotAmong(s[1..], hp.host, 0, '[');
    NotAmong(s[1..], hp.port, i, '[');
    NotAmong(s[end + 1..], hp.port, 1, ']');
    assert ']' !in hp.host by {
      assert forall k :: 0 <= k < |hp.host| ==> hp.host[k] == s[1 + k];
    }
    assert ':' !in hp.port by {
      assert forall k :: 0 <= k < |hp.port| ==> hp.port[k] == s[i + 1 + k];
    }
    BracketedText(s, end);
  }

  lemma PlainParts(s: string)
    requires SplitHostPort(s).Some? && s[0] != '['
    ensures var hp := SplitHostPort(s).value;
            && NoBrackets(hp.host) && NoBrackets(hp.port) && ':' !in hp.port
            && s == hp.host + ":" + hp.port && ':' !in hp.host
  {
    var i := LastIndexOf(s, ':', |s|);
    var hp := SplitHostPort(s).value;
    assert hp.host == s[..i] && hp.port == s[i + 1..];
    assert forall k :: 0 <= k < |hp.port| ==> hp.port[k] == s[i + 1 + k];
  }

  /** What a successful split returns: bracket-free parts, no colon in the
      port, and the text itself up to the brackets. */
  lemma SplitParts(s: string)
    requires SplitHostPort(s).Some?
    ensures var hp := SplitHostPort(s).value;
            && NoBrackets(hp.host) && NoBrackets(hp.port) && ':' !in hp.port
            && (if s[0] == '[' then s == "[" + hp.host + "]:" + hp.port
                else s == hp.host + ":" + hp.port && ':' !in hp.host)
  {
    assert s != "";
    hide SplitHostPort;
    if s[0] == '[' {
      BracketedParts(s);
    } else {
      PlainParts(s);
    }
  }

  lemma LastIndexUnique(s: string, c: char, i: nat)
    requires i < |s| && s[i] == c
    requires forall k :: i < k < |s| ==> s[k] != c
    ensures LastIndexOf(s, c, |s|) == i
  {
  }

  lemma SplitBracketed(host: string, port: string)
    requires NoBrackets(host) && NoBrackets(port) && ':' !in port
    ensures SplitHostPort("[" + host + "]:" + port) == Some(HostPort(host, port))
  {
    var s := "[" + host + "]:" + port;
    var i := |host| + 2;
    assert s[i] == ':' && s[i - 1] == ']' && s[0] == '[';
    assert s[i + 1..] == port;
    assert s[1..i - 1] == host;
    LastIndexUnique(s, ':', i);
    assert forall k :: 0 <= k < i - 1 ==> s[k] != ']';
    assert IndexOf(s, ']') == i - 1;
    assert s[1..] == host + "]:" + port;
    assert s[i..] == ":" + port;
  }

  lemma SplitPlain(host: string, port: string)
    requires NoBrackets(host) && NoBrackets(port) && ':' !in port && ':' !in host
    ensures SplitHostPort(host + ":" + port) == Some(HostPort(host, port))
  {
    var s := host + ":" + port;
    assert s[|host| + 1..] == port;
    assert s[..|host|] == host;
    LastIndexUnique(s, ':', |host|);
  }

  /** Splitting undoes joining exactly for the parts that carry no brackets and
      a port without a colon. */
  lemma SplitUndoesJoinHostPort(host: string, port: string)
    ensures SplitHostPort(JoinHostPort(host, port)) == Some(HostPort(host, port))
        <==> NoBrackets(host) && NoBrackets(port) && ':' !in port
  {
    if SplitHostPort(JoinHostPort(host, port)) == Some(HostPort(host, port)) {
      SplitParts(JoinHostPort(host, port));
    }
    if NoBrackets(host) && NoBrackets(port) && ':' !in port {
      if ':' in host {
        SplitBracketed(host, port);
      } else {
        SplitPlain(host, port);
      }
    }
  }

  /** Joining undoes splitting except for a needlessly bracketed host. */
  lemma JoinUndoesSplitHostPort(s: string)
    requires SplitHostPort(s).Some?
    ensures var hp := SplitHostPort(s).value;
            JoinHostPort(hp.host, hp.port) == s <==> (s[0] == '[' ==> ':' in hp.host)
  {
    SplitParts(s);
    var hp := SplitHostPort(s).value;
    if s[0] == '[' {
      assert |hp.host + ":" + hp.port| != |s|;
    }
  }
}
