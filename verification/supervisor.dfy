/** internal/tunnel/tunnel.go: the tunnel manager as a timed state machine, and
    what a heartbeat may conclude from the status it publishes.

    A run is described by its trace. The methods produce legal traces; the
    theorems hold of every legal trace. Times are nanoseconds. */
module Supervisor {
  import opened Basics

  const SECOND := 1_000_000_000
  const HANDSHAKE_TIMEOUT := 180 * SECOND
  const CHECK_INTERVAL := 15 * SECOND
  const REFRESH_INTERVAL := 30 * SECOND
  const MAX_BACKOFF := 60 * SECOND

  datatype Status = Status(up: bool, mode: string, lastHandshake: Option<int>, rxBytes: int, txBytes: int)

  /** One poll of the device. The clock is read up to four times, in this
      order: for the handshake's age, the device's age, the age of the last
      refresh, and to stamp a refresh, whose call begins at `called`. A time
      that is not read repeats the one before it. */
  datatype Poll = Poll(
    at: int, status: Status, handshakeRead: int, deviceRead: int, refreshRead: int,
    stale: bool, refreshed: bool, stamp: int, called: int)

  datatype Event =
    | Attempt(begun: int, ended: int, ok: bool)
    | Backoff(due: int, until: int)
    | Supervising(ticker: int, since: int)
    | Tick(poll: Poll)
    | Lost(at: int)
    | Interrupted(at: int)
    | Closed(at: int)
    | Cleared(at: int, mode: string)

  type Trace = seq<Event>

  function Last(tr: Trace): Event requires tr != [] { tr[|tr| - 1] }
  function Front(tr: Trace): Trace requires tr != [] { tr[..|tr| - 1] }

  function EndOf(e: Event): int {
    match e
    case Attempt(_, ended, _) => ended
    case Backoff(_, until) => until
    case Supervising(_, since) => since
    case Tick(p) => p.called
    case Lost(at) => at
    case Interrupted(at) => at
    case Closed(at) => at
    case Cleared(at, _) => at
  }

  /** No event of the trace ends after t. */
  predicate NotBefore(tr: Trace, t: int) { tr == [] || EndOf(Last(tr)) <= t }

  /** When the current device's supervision began. */
  function Since(tr: Trace): int {
    if tr == [] then 0 else if Last(tr).Supervising? then Last(tr).since else Since(Front(tr))
  }

  /** `lastRefresh`: the stamp of the current device's latest refresh. */
  function LastRefresh(tr: Trace): Option<int> {
    if tr == [] || !Last(tr).Tick? then None
    else if Last(tr).poll.refreshed then Some(Last(tr).poll.stamp)
    else LastRefresh(Front(tr))
  }

  /** How many attempts in a row have just failed. */
  function Failures(tr: Trace): nat {
    if tr == [] then 0
    else
      match Last(tr)
      case Attempt(_, _, false) => 1 + Failures(Front(tr))
      case Backoff(_, _) => Failures(Front(tr))
      case _ => 0
  }

  /** The wait after k + 1 failures in a row. */
  function BackoffWait(k: nat): int { Min(Pow2(k) * SECOND, MAX_BACKOFF) }

  /** The code's way of computing it. */
  lemma BackoffDoubles(k: nat)
    ensures BackoffWait(0) == SECOND
    ensures BackoffWait(k + 1) == Min(BackoffWait(k) * 2, MAX_BACKOFF)
  {
  }

  predicate Watching(tr: Trace) { tr != [] && (Last(tr).Supervising? || Last(tr).Tick?) }

  /** The latest device was given up because the context ended. */
  predicate Stopping(tr: Trace) {
    && tr != []
    && (Last(tr).Interrupted? || ((Last(tr).Closed? || Last(tr).Cleared?) && Stopping(Front(tr))))
  }

  /** Ready for an attempt: at the start, after a backoff, after a device was
      lost. */
  predicate Idle(tr: Trace) {
    tr == [] || Last(tr).Backoff? || (Last(tr).Cleared? && !Stopping(tr))
  }

  /** The first tick comes a check interval after the ticker was started. */
  predicate TickTime(tr: Trace, at: int)
    requires tr != []
  {
    NotBefore(tr, at) && (Last(tr).Supervising? ==> at >= Last(tr).ticker + CHECK_INTERVAL)
  }

  predicate PollOk(p: Poll, since: int, lastRefresh: Option<int>) {
    && p.at <= p.handshakeRead <= p.deviceRead <= p.refreshRead <= p.stamp <= p.called
    && (p.status.up <==>
          p.status.lastHandshake.Some? && p.handshakeRead - p.status.lastHandshake.value < HANDSHAKE_TIMEOUT)
    && (p.stale <==> !p.status.up && p.deviceRead - since > HANDSHAKE_TIMEOUT)
    && (p.refreshed <==>
          p.stale && (lastRefresh.None? || p.refreshRead - lastRefresh.value >= REFRESH_INTERVAL))
  }

  /** What may happen next. */
  predicate LegalNext(tr: Trace, e: Event) {
    match e
    case Attempt(begun, ended, _) => Idle(tr) && NotBefore(tr, begun) && begun <= ended
    case Backoff(due, until) =>
      && tr != [] && Last(tr).Attempt? && !Last(tr).ok
      && due == EndOf(Last(tr)) + BackoffWait(Failures(tr) - 1) && until >= due
    case Supervising(ticker, since) =>
      tr != [] && Last(tr).Attempt? && Last(tr).ok && NotBefore(tr, ticker) && ticker <= since
    case Tick(p) => Watching(tr) && TickTime(tr, p.at) && PollOk(p, Since(tr), LastRefresh(tr))
    case Lost(at) => Watching(tr) && TickTime(tr, at)
    case Interrupted(at) => Watching(tr) && NotBefore(tr, at)
    case Closed(at) => tr != [] && (Last(tr).Lost? || Last(tr).Interrupted?) && NotBefore(tr, at)
    case Cleared(at, _) => tr != [] && Last(tr).Closed? && NotBefore(tr, at)
  }

  predicate Legal(tr: Trace) {
    tr == [] || (Legal(Front(tr)) && LegalNext(Front(tr), Last(tr)))
  }

  /** The status a reader sees after the trace. */
  function Published(tr: Trace, initial: Status): Status {
    if tr == [] then initial
    else
      match Last(tr)
      case Tick(p) => p.status
      case Cleared(_, mode) => Status(false, mode, None, 0, 0)
      case _ => Published(Front(tr), initial)
  }

  // ---------- refresh pacing ----------

  predicate RefreshAt(tr: Trace, i: nat) { i < |tr| && tr[i].Tick? && tr[i].poll.refreshed }

  lemma {:induction false} TimeAdvances(tr: Trace, i: nat)
    requires Legal(tr) && i < |tr|
    ensures EndOf(tr[i]) <= EndOf(Last(tr))
    ensures Legal(tr[..i + 1])
  {
    if i < |tr| - 1 {
      TimeAdvances(Front(tr), i);
      assert Front(tr)[..i + 1] == tr[..i + 1];
      StepAdvances(Front(tr), Last(tr));
    } else {
      assert tr[..i + 1] == tr;
    }
  }

  lemma StepAdvances(tr: Trace, e: Event)
    requires tr != [] && LegalNext(tr, e)
    ensures EndOf(Last(tr)) <= EndOf(e)
  {
  }

  /** While a device is watched, earlier refreshes are its own, no later than
      its latest, or were made before its supervision began. */
  lemma {:induction false} EarlierRefresh(tr: Trace, i: nat)
    requires Legal(tr) && Watching(tr) && RefreshAt(tr, i)
    ensures tr[i].poll.stamp <= Since(tr)
            || (LastRefresh(tr).Some? && tr[i].poll.stamp <= LastRefresh(tr).value)
  {
    if Last(tr).Supervising? {
      TimeAdvances(Front(tr), i);
    } else if i < |tr| - 1 {
      EarlierRefresh(Front(tr), i);
      if Last(tr).poll.refreshed {
        TimeAdvances(Front(tr), i);
      }
    }
  }

  /** Over a whole run, however often the device is recreated and the rate
      limiter with it: any two refreshes are at least 30 seconds apart. */
  lemma RefreshesArePaced(tr: Trace, i: nat, j: nat)
    requires Legal(tr) && i < j && RefreshAt(tr, i) && RefreshAt(tr, j)
    ensures tr[j].poll.called >= tr[j].poll.stamp >= tr[j].poll.refreshRead >= tr[i].poll.stamp + REFRESH_INTERVAL
  {
    TimeAdvances(tr, j);
    var upTo := tr[..j + 1];
    assert Front(upTo) == tr[..j] && Last(upTo) == tr[j];
    EarlierRefresh(tr[..j], i);
  }

  /** Every refresh call begins within d of its stamp. */
  predicate Prompt(tr: Trace, d: int) {
    forall i :: 0 <= i < |tr| && RefreshAt(tr, i) ==> tr[i].poll.called <= tr[i].poll.stamp + d
  }

  /** Any two refresh calls begin at least g apart. */
  predicate CallsApart(tr: Trace, g: int) {
    forall i, j :: 0 <= i < j < |tr| && RefreshAt(tr, i) && RefreshAt(tr, j) ==>
                     tr[j].poll.called >= tr[i].poll.called + g
  }

  /** The limiter compares stamps, so the calls themselves are 30 seconds apart
      less the time from a stamp to its call: never closer than that, and in
      some run no further. When every call follows its stamp at once, that is
      30 seconds. */
  lemma CallSpacing(d: nat, g: int)
    ensures g <= REFRESH_INTERVAL - Min(d, REFRESH_INTERVAL) <==>
            (forall tr :: Legal(tr) && Prompt(tr, d) ==> CallsApart(tr, g))
  {
    if g <= REFRESH_INTERVAL - Min(d, REFRESH_INTERVAL) {
      forall tr | Legal(tr) && Prompt(tr, d)
        ensures CallsApart(tr, g)
      {
        PromptCalls(tr, d, g);
      }
    } else {
      var tr := LateCall(Min(d, REFRESH_INTERVAL));
      assert !CallsApart(tr, g) by {
        assert RefreshAt(tr, 2) && RefreshAt(tr, 3);
      }
    }
  }

  lemma PromptCalls(tr: Trace, d: nat, g: int)
    requires Legal(tr) && Prompt(tr, d) && g <= REFRESH_INTERVAL - Min(d, REFRESH_INTERVAL)
    ensures CallsApart(tr, g)
  {
    hide Legal;
    forall i, j | 0 <= i < j < |tr| && RefreshAt(tr, i) && RefreshAt(tr, j)
      ensures tr[j].poll.called >= tr[i].poll.called + g
    {
      RefreshesArePaced(tr, i, j);
      CallsInOrder(tr, i, j);
    }
  }

  lemma CallsInOrder(tr: Trace, i: nat, j: nat)
    requires Legal(tr) && i < j && RefreshAt(tr, i) && RefreshAt(tr, j)
    ensures tr[j].poll.called >= tr[j].poll.stamp && tr[j].poll.called >= tr[i].poll.called
  {
    TimeAdvances(tr, j);
    var upTo := tr[..j + 1];
    assert Front(upTo) == tr[..j] && Last(upTo) == tr[j];
    TimeAdvances(upTo, i);
  }

  /** A device that is never reached, refreshed twice: the first call begins d
      after its stamp, the second one at once. */
  lemma LateCall(d: nat) returns (tr: Trace)
    requires d <= REFRESH_INTERVAL
    ensures Legal(tr) && Prompt(tr, d) && |tr| == 4 && RefreshAt(tr, 2) && RefreshAt(tr, 3)
    ensures tr[3].poll.called == tr[2].poll.called + REFRESH_INTERVAL - d
  {
    var t := HANDSHAKE_TIMEOUT + SECOND;
    var u := t + REFRESH_INTERVAL;
    var down := Status(false, "", None, 0, 0);
    var one, two: Trace := [Attempt(0, 0, true)], [Attempt(0, 0, true), Supervising(0, 0)];
    var three := two + [Tick(Poll(t, down, t, t, t, true, true, t, t + d))];
    tr := three + [Tick(Poll(u, down, u, u, u, true, true, u, u))];
    assert Front(one) == [] && Front(two) == one && Front(three) == two && Front(tr) == three;
    assert Legal(one);
    assert Legal(two);
    assert Since(two) == 0 && LastRefresh(two) == None;
    assert Legal(three);
    assert Since(three) == 0 && LastRefresh(three) == Some(t);
  }

  /** No refresh falls in the first three minutes of a device, or while its last
      handshake is younger than three minutes. */
  lemma NoEarlyRefresh(tr: Trace, i: nat)
    requires Legal(tr) && RefreshAt(tr, i)
    ensures var p := tr[i].poll;
            && p.called >= p.stamp > Since(tr[..i]) + HANDSHAKE_TIMEOUT
            && (p.status.lastHandshake.Some? ==> p.stamp >= p.status.lastHandshake.value + HANDSHAKE_TIMEOUT)
  {
    TimeAdvances(tr, i);
    assert Front(tr[..i + 1]) == tr[..i];
  }

  /** A poll belongs to the device whose supervision began last before it, and
      what it compares with are that supervision's start and that device's
      latest refresh, if it had one. */
  lemma {:induction false} PollBelongs(tr: Trace, k: nat) returns (j: nat)
    requires Legal(tr) && k < |tr| && tr[k].Tick?
    ensures j < k && tr[j].Supervising? && forall m :: j < m <= k ==> tr[m].Tick?
    ensures Since(tr[..k]) == tr[j].since
    ensures LastRefresh(tr[..k]).None? <==> forall m :: j < m < k ==> !RefreshAt(tr, m)
    decreases k
  {
    TimeAdvances(tr, k);
    var before := tr[..k];
    assert Front(tr[..k + 1]) == before && Last(before) == tr[k - 1];
    assert Front(before) == tr[..k - 1];
    if tr[k - 1].Tick? {
      j := PollBelongs(tr, k - 1);
      if tr[k - 1].poll.refreshed {
        assert RefreshAt(tr, k - 1);
      }
    } else {
      j := k - 1;
    }
  }

  /** A poll refreshes the peer exactly when there was no handshake for three
      minutes, the device is older than that, and its last refresh, if any, is
      at least 30 seconds old: each age taken at the poll's own read for it. */
  lemma RefreshedIffDue(tr: Trace, k: nat)
    requires Legal(tr) && k < |tr| && tr[k].Tick?
    ensures var p, last := tr[k].poll, LastRefresh(tr[..k]);
            p.refreshed <==>
              && (p.status.lastHandshake.None? || p.handshakeRead - p.status.lastHandshake.value >= 180 * SECOND)
              && p.deviceRead - Since(tr[..k]) > 180 * SECOND
              && (last.None? || p.refreshRead - last.value >= 30 * SECOND)
  {
    TimeAdvances(tr, k);
    assert Front(tr[..k + 1]) == tr[..k];
  }

  /** A poll that finds no handshake for three minutes on a device older than
      that. */
  predicate StaleAt(tr: Trace, k: nat) {
    && k < |tr| && tr[k].Tick?
    && var p := tr[k].poll;
       && (p.status.lastHandshake.None? || p.handshakeRead - p.status.lastHandshake.value >= 180 * SECOND)
       && p.deviceRead - Since(tr[..k]) > 180 * SECOND
  }

  /** A stretch of polls of one device that all find it stale, each at most d
      after the one before: from that one's read of the last refresh's age to
      this one's last read. */
  predicate StaleStretch(tr: Trace, i: nat, j: nat, d: int) {
    && i <= j < |tr|
    && (forall k :: i <= k <= j ==> tr[k].Tick? && StaleAt(tr, k))
    && (forall k :: i < k <= j ==> tr[k].poll.stamp <= tr[k - 1].poll.refreshRead + d)
  }

  /** When a stale poll asks for a refresh, the device was refreshed less than
      30 seconds before, or is refreshed there and then. */
  lemma StaleIsRefreshed(tr: Trace, k: nat)
    requires Legal(tr) && StaleAt(tr, k)
    ensures LastRefresh(tr[..k + 1]).Some?
    ensures tr[k].poll.refreshRead < LastRefresh(tr[..k + 1]).value + REFRESH_INTERVAL
  {
    RefreshedIffDue(tr, k);
    TimeAdvances(tr, k);
    assert Front(tr[..k + 1]) == tr[..k];
  }

  lemma {:induction false} RefreshRemembered(tr: Trace, i: nat, k: nat)
    requires i <= k < |tr| && RefreshAt(tr, i)
    requires forall m :: i <= m <= k ==> tr[m].Tick?
    requires forall m :: i < m <= k ==> !RefreshAt(tr, m)
    ensures LastRefresh(tr[..k + 1]) == Some(tr[i].poll.stamp)
  {
    assert Front(tr[..k + 1]) == tr[..k];
    if i < k {
      assert !RefreshAt(tr, k);
      RefreshRemembered(tr, i, k - 1);
    }
  }

  /** Conversely, under continuous staleness with checks at most d apart, one
      refresh follows another within 30 seconds plus d. */
  lemma StaleMeansRefreshed(tr: Trace, i: nat, j: nat, d: int)
    requires Legal(tr) && i < j && StaleStretch(tr, i, j, d)
    requires RefreshAt(tr, i) && RefreshAt(tr, j)
    requires forall k :: i < k < j ==> !RefreshAt(tr, k)
    ensures tr[j].poll.stamp < tr[i].poll.stamp + REFRESH_INTERVAL + d
  {
    assert forall m :: i <= m <= j ==> tr[m].Tick?;
    assert StaleAt(tr, j - 1) && tr[j].poll.stamp <= tr[j - 1].poll.refreshRead + d;
    hide Legal, LastRefresh, StaleAt, StaleStretch;
    RefreshRemembered(tr, i, j - 1);
    StaleIsRefreshed(tr, j - 1);
  }

  /** And it never stops: two stale polls 30 seconds apart have a refresh
      between them or at the second. */
  lemma StaleKeepsRefreshing(tr: Trace, i: nat, j: nat, d: int) returns (k: nat)
    requires Legal(tr) && i < j && StaleStretch(tr, i, j, d)
    requires tr[j].poll.refreshRead >= tr[i].poll.stamp + REFRESH_INTERVAL
    ensures i < k <= j && RefreshAt(tr, k)
  {
    k := j;
    while k > i + 1 && !RefreshAt(tr, k)
      invariant i < k <= j
      invariant forall m :: k < m <= j ==> !RefreshAt(tr, m)
    {
      k := k - 1;
    }
    if !RefreshAt(tr, k) {
      NoRefreshSince(tr, i, j);
      StaleIsRefreshed(tr, i);
      StaleIsRefreshed(tr, j);
      TimeAdvances(tr, i);
      LastRefreshPast(tr[..i + 1]);
      assert false;
    }
  }

  lemma {:induction false} NoRefreshSince(tr: Trace, i: nat, j: nat)
    requires i <= j < |tr| && forall k :: i <= k <= j ==> tr[k].Tick?
    requires forall k :: i < k <= j ==> !RefreshAt(tr, k)
    ensures LastRefresh(tr[..j + 1]) == LastRefresh(tr[..i + 1])
  {
    assert Front(tr[..j + 1]) == tr[..j];
    if i < j {
      assert !RefreshAt(tr, j);
      NoRefreshSince(tr, i, j - 1);
    }
  }

  lemma {:induction false} LastRefreshPast(tr: Trace)
    requires Legal(tr) && LastRefresh(tr).Some?
    ensures LastRefresh(tr).value <= Last(tr).poll.stamp
  {
    if !Last(tr).poll.refreshed {
      LastRefreshPast(Front(tr));
    }
  }

  // ---------- device lifecycle ----------

  function Opens(tr: Trace): nat {
    if tr == [] then 0 else Opens(Front(tr)) + if Last(tr).Attempt? && Last(tr).ok then 1 else 0
  }

  function Closes(tr: Trace): nat {
    if tr == [] then 0 else Closes(Front(tr)) + if Last(tr).Closed? then 1 else 0
  }

  /** A device is open from its attempt until it is closed. */
  predicate DeviceOpen(tr: Trace) {
    && tr != []
    && match Last(tr)
       case Attempt(_, _, ok) => ok
       case Supervising(_, _) => true
       case Tick(_) => true
       case Lost(_) => true
       case Interrupted(_) => true
       case _ => false
  }

  /** At most one device is open at any point, and every device that was opened
      has been closed exactly once before the next attempt. */
  lemma {:induction false} OneDeviceAtATime(tr: Trace)
    requires Legal(tr)
    ensures Opens(tr) == Closes(tr) + if DeviceOpen(tr) then 1 else 0
    ensures Idle(tr) ==> Opens(tr) == Closes(tr)
  {
    if tr != [] {
      OneDeviceAtATime(Front(tr));
    }
  }

  /** Consecutive attempts are apart: by the backoff after a failure, by at
      least one check interval after a device that opened. */
  lemma AttemptsAreApart(tr: Trace, i: nat, j: nat)
    requires Legal(tr) && i < j < |tr| && tr[i].Attempt? && tr[j].Attempt?
    requires forall k :: i < k < j ==> !tr[k].Attempt?
    ensures tr[j].begun >= tr[i].ended
                           + if tr[i].ok then CHECK_INTERVAL else BackoffWait(Failures(tr[..i + 1]) - 1)
  {
    TimeAdvances(tr, j);
    assert Front(tr[..j + 1]) == tr[..j] && Last(tr[..j]) == tr[j - 1];
    AfterAttempt(tr, i, j - 1);
  }

  /** What follows an attempt, up to the next one, starts late enough. */
  lemma {:induction false} AfterAttempt(tr: Trace, i: nat, k: nat)
    requires Legal(tr) && i < k < |tr| && tr[i].Attempt?
    requires forall m :: i < m <= k ==> !tr[m].Attempt?
    ensures if !tr[i].ok then
              k == i + 1 && tr[k].Backoff?
              && EndOf(tr[k]) >= tr[i].ended + BackoffWait(Failures(tr[..i + 1]) - 1)
            else
              match tr[k]
              case Supervising(ticker, _) => ticker >= tr[i].ended
              case Backoff(_, _) => false
              case Interrupted(_) => true
              case Closed(_) => Stopping(tr[..k + 1]) || EndOf(tr[k]) >= tr[i].ended + CHECK_INTERVAL
              case Cleared(_, _) => Stopping(tr[..k + 1]) || EndOf(tr[k]) >= tr[i].ended + CHECK_INTERVAL
              case _ => EndOf(tr[k]) >= tr[i].ended + CHECK_INTERVAL
  {
    TimeAdvances(tr, k);
    assert Front(tr[..k + 1]) == tr[..k] && Last(tr[..k]) == tr[k - 1];
    if k > i + 1 {
      AfterAttempt(tr, i, k - 1);
    } else {
      assert tr[..k] == tr[..i + 1];
    }
  }

  // ---------- backoff ----------

  function TotalBackoff(n: nat): int {
    if n == 0 then 0 else TotalBackoff(n - 1) + BackoffWait(n - 1)
  }

  /** After n failures in a row: doubling up to 32 seconds, then a minute
      each. */
  lemma {:induction false} TotalBackoffIs(n: nat)
    ensures TotalBackoff(n) == SECOND * if n <= 6 then Pow2(n) - 1 else 63 + 60 * (n - 6)
  {
    if n > 0 {
      TotalBackoffIs(n - 1);
      assert Pow2(6) == 64 by { assert Pow2(3) == 8; }
      if n <= 6 {
        Pow2Grows(n - 1, 5);
        assert Pow2(5) == 32;
      } else {
        Pow2Grows(6, n - 1);
      }
    }
  }

  /** A backoff that follows n failures in a row ends at least the total after
      the first of them. */
  lemma {:induction false} BackoffsAddUp(tr: Trace)
    requires Legal(tr) && tr != [] && Last(tr).Backoff?
    ensures var n := Failures(tr);
            && 1 <= n && 2 * n <= |tr|
            && tr[|tr| - 2 * n].Attempt? && !tr[|tr| - 2 * n].ok
            && EndOf(Last(tr)) >= tr[|tr| - 2 * n].ended + TotalBackoff(n)
  {
    var failed := Front(tr);
    var before := Front(failed);
    assert LegalNext(failed, Last(tr)) && LegalNext(before, Last(failed));
    assert Failures(tr) == Failures(failed) == 1 + Failures(before);
    if before != [] && Last(before).Backoff? {
      BackoffsAddUp(before);
      StepAdvances(before, Last(failed));
      assert tr[|tr| - 2 * Failures(tr)] == before[|before| - 2 * Failures(before)];
    }
  }

  /** Failures counts exactly the attempts that have just failed in a row: the
      streak goes back to the start or to a device that was closed. */
  lemma {:induction false} FailuresIsStreak(tr: Trace)
    requires Legal(tr) && tr != [] && Last(tr).Attempt? && !Last(tr).ok
    ensures var n := Failures(tr);
            && 1 <= n && 2 * n <= |tr| + 1
            && (forall m :: 0 <= m < n ==> tr[|tr| - 1 - 2 * m].Attempt? && !tr[|tr| - 1 - 2 * m].ok)
            && (2 * n == |tr| + 1 || tr[|tr| - 2 * n].Cleared?)
  {
    var before := Front(tr);
    assert LegalNext(before, Last(tr));
    if before != [] && Last(before).Backoff? {
      var failed := Front(before);
      assert LegalNext(failed, Last(before));
      FailuresIsStreak(failed);
      var n := Failures(tr);
      assert Failures(failed) == n - 1 && |failed| == |tr| - 2;
      forall m | 0 <= m < n
        ensures tr[|tr| - 1 - 2 * m].Attempt? && !tr[|tr| - 1 - 2 * m].ok
      {
        if m > 0 {
          assert tr[|tr| - 1 - 2 * m] == failed[|failed| - 1 - 2 * (m - 1)];
        }
      }
    }
  }

  /** After k + 1 failures in a row the retry timer is set to the failure plus
      2^k seconds, or a minute when that is less. */
  lemma RetryTimer(tr: Trace, i: nat)
    requires Legal(tr) && 0 < i < |tr| && tr[i].Backoff?
    ensures tr[i - 1].Attempt? && !tr[i - 1].ok && Failures(tr[..i]) > 0
    ensures var s := Pow2(Failures(tr[..i]) - 1);
            tr[i].due == tr[i - 1].ended + (if s <= 60 then s else 60) * SECOND
  {
    TimeAdvances(tr, i);
    assert Front(tr[..i + 1]) == tr[..i] && Last(tr[..i + 1]) == tr[i] && Last(tr[..i]) == tr[i - 1];
  }

  /** An attempt after n failures in a row begins at least TotalBackoff(n) after
      the first of them ended. */
  lemma RetryIsDelayed(tr: Trace, j: nat)
    requires Legal(tr) && j < |tr| && tr[j].Attempt? && Failures(tr[..j]) > 0
    ensures var n := Failures(tr[..j]);
            && 2 * n <= j && tr[j - 2 * n].Attempt? && !tr[j - 2 * n].ok
            && tr[j].begun >= tr[j - 2 * n].ended + TotalBackoff(n)
  {
    TimeAdvances(tr, j);
    assert Front(tr[..j + 1]) == tr[..j] && Last(tr[..j + 1]) == tr[j];
    assert Last(tr[..j]).Backoff?;
    BackoffsAddUp(tr[..j]);
  }

  // ---------- the published status ----------

  /** The position of the poll whose status is still published. */
  function PublishedBy(tr: Trace): Option<nat> {
    if tr == [] then None
    else
      match Last(tr)
      case Tick(_) => Some(|tr| - 1)
      case Cleared(_, _) => None
      case _ => PublishedBy(Front(tr))
  }

  /** A reader that finds the tunnel up, at any time after the trace, sees a
      handshake younger than three minutes plus the age of the poll that
      published it, and no attempt has been made since that poll: its device
      is open, or only just being closed. */
  lemma {:induction false} UpIsRecent(tr: Trace, initial: Status, now: int)
    requires Legal(tr) && !initial.up && Published(tr, initial).up && NotBefore(tr, now)
    ensures PublishedBy(tr).Some?
    ensures var k := PublishedBy(tr).value;
            && k < |tr| && tr[k].Tick? && Published(tr, initial) == tr[k].poll.status
            && tr[k].poll.status.lastHandshake.Some?
            && now - tr[k].poll.status.lastHandshake.value
               < HANDSHAKE_TIMEOUT + (now - tr[k].poll.handshakeRead)
            && tr[k].poll.handshakeRead <= now
            && (DeviceOpen(tr) || Last(tr).Closed?)
            && forall m :: k < m < |tr| ==> tr[m].Lost? || tr[m].Interrupted? || tr[m].Closed?
  {
    if !Last(tr).Tick? {
      StepAdvances(Front(tr), Last(tr));
      UpIsRecent(Front(tr), initial, now);
    }
  }

  // ---------- the code ----------

  /** What one poll of the device finds. */
  datatype Reading = Reading(lastHandshake: Option<int>, rxBytes: int, txBytes: int)

  /** How a device's supervision ends: a poll fails, a poll fails and the
      context ends before the device is recreated, or the context ends. */
  datatype Ending = IsLost | IsLostThenEnds | ContextEnds

  /** A device that opened, its readings, and how that ended. */
  datatype Device = Device(mode: string, readings: seq<Reading>, ending: Ending)
  {
    predicate Lost() { !ending.ContextEnds? }
  }

  datatype Cancel = GoOn | BeforeWait | DuringWait

  datatype Opening = Fails(cancel: Cancel) | Opened(device: Device)

  /** The context ends during this opening. */
  predicate EndsRun(o: Opening) {
    match o
    case Fails(cancel) => cancel != GoOn
    case Opened(device) => !device.ending.IsLost?
  }

  /** The context outlasts the first n openings. */
  predicate GoesOn(os: seq<Opening>, n: nat)
    requires n <= |os|
  {
    forall k :: 0 <= k < n ==> !EndsRun(os[k])
  }

  /** What the outside world did, in order. */
  datatype Mark = Tried(ok: bool) | Polled(reading: Reading) | DeviceLost | ContextEnded

  function MarkOf(e: Event): seq<Mark> {
    match e
    case Attempt(_, _, ok) => [Tried(ok)]
    case Tick(p) => [Polled(Reading(p.status.lastHandshake, p.status.rxBytes, p.status.txBytes))]
    case Lost(_) => [DeviceLost]
    case Interrupted(_) => [ContextEnded]
    case _ => []
  }

  function Marks(tr: Trace): seq<Mark> {
    if tr == [] then [] else Marks(Front(tr)) + MarkOf(Last(tr))
  }

  function Polls(rs: seq<Reading>): seq<Mark> {
    seq(|rs|, i requires 0 <= i < |rs| => Polled(rs[i]))
  }

  /** What the first n openings leave behind. */
  function Script(os: seq<Opening>, n: nat): seq<Mark>
    requires n <= |os|
  {
    if n == 0 then [] else Script(os, n - 1) + MarksOf(os[n - 1])
  }

  function MarksOf(o: Opening): seq<Mark> {
    match o
    case Fails(_) => [Tried(false)]
    case Opened(d) => [Tried(true)] + Polls(d.readings) + [if d.Lost() then DeviceLost else ContextEnded]
  }

  /** An opening leaves the attempt, then every reading in order, then how the
      device ended. */
  lemma MarksOfIs(o: Opening)
    ensures var ms := MarksOf(o);
            && |ms| == (if o.Fails? then 1 else |o.device.readings| + 2)
            && ms[0] == Tried(o.Opened?)
            && (o.Opened? ==>
                  && ms[|ms| - 1] == (if o.device.ending == ContextEnds then ContextEnded else DeviceLost)
                  && forall i :: 0 <= i < |o.device.readings| ==> ms[i + 1] == Polled(o.device.readings[i]))
  {
  }

  /** Run returned because the context ended, or is still going after the given
      openings. */
  datatype RunState = Returned | StillRunning

  /** time.Now and the timers: reads never go back, and a timer never fires
      early. */
  class Clock {
    var now: int
    ghost var due: int   // when the latest timer was set to fire

    constructor () { now, due := 0, 0; }

    method Read() returns (t: int)
      modifies this
      ensures old(now) <= now && t == now && due == old(due)
    {
      var passed: nat :| true;
      now := now + passed;
      t := now;
    }

    method WaitUntil(at: int) returns (t: int)
      modifies this
      ensures old(now) <= now && at <= now && t == now && due == at
    {
      due := at;
      t := Read();
      if t < at {
        now := at;
        t := at;
      }
    }
  }

  /** What one more event does to a trace. */
  lemma Extend(tr: Trace, e: Event, initial: Status)
    requires Legal(tr) && LegalNext(tr, e)
    ensures var longer := tr + [e];
            && Front(longer) == tr && Last(longer) == e
            && Legal(longer) && Marks(longer) == Marks(tr) + MarkOf(e)
            && (!e.Tick? && !e.Cleared? ==> Published(longer, initial) == Published(tr, initial))
  {
    var longer := tr + [e];
    assert Front(longer) == tr && Last(longer) == e;
    hide LegalNext, MarkOf;
  }

  class Manager {
    const clock: Clock
    const initial: Status
    var status: Status
    ghost var trace: Trace

    /** The trace so far is legal, and the published status is the trace's. */
    ghost predicate Valid() reads this, clock {
      Legal(trace) && NotBefore(trace, clock.now) && status == Published(trace, initial)
    }

    constructor (clock: Clock)
      ensures Valid() && trace == [] && this.clock == clock && !status.up
    {
      this.clock := clock;
      initial, status, trace := Status(false, "", None, 0, 0), Status(false, "", None, 0, 0), [];
    }

    ghost method Record(e: Event)
      requires Legal(trace) && LegalNext(trace, e) && NotBefore(trace, EndOf(e))
      requires !e.Tick? && !e.Cleared? && EndOf(e) <= clock.now && status == Published(trace, initial)
      modifies this`trace
      ensures Valid() && trace == old(trace) + [e] && Front(trace) == old(trace)
      ensures Marks(trace) == old(Marks(trace)) + MarkOf(e)
    {
      Extend(trace, e, initial);
      hide Legal, LegalNext, Published, Marks, MarkOf;
      trace := trace + [e];
    }

    /** isUp, with its one read of the clock when there was a handshake. */
    method IsUp(lastHandshake: Option<int>) returns (up: bool, read: int)
      modifies clock
      ensures old(clock.now) <= clock.now == read
      ensures up <==> lastHandshake.Some? && read - lastHandshake.value < HANDSHAKE_TIMEOUT
    {
      read := clock.now;
      if lastHandshake.None? {
        return false, read;
      }
      read := clock.Read();
      return read - lastHandshake.value < HANDSHAKE_TIMEOUT, read;
    }

    /** One pass of supervise's loop after a successful poll. */
    method Check(r: Reading, mode: string, at: int, up: int, lastRefresh: Option<int>) returns (lastRefresh': Option<int>)
      requires Valid() && Watching(trace) && TickTime(trace, at) && at == clock.now
      requires up == Since(trace) && lastRefresh == LastRefresh(trace)
      modifies this, clock
      ensures Valid() && trace != [] && Last(trace).Tick? && Front(trace) == old(trace)
      ensures Last(trace).poll.status.mode == mode && Marks(trace) == old(Marks(trace)) + [Polled(r)]
      ensures lastRefresh' == LastRefresh(trace) && Since(trace) == up
      ensures var p := Last(trace).poll;
              && status == p.status
              && p.status.lastHandshake == r.lastHandshake && p.status.rxBytes == r.rxBytes && p.status.txBytes == r.txBytes
              && (p.status.up <==> r.lastHandshake.Some? && p.handshakeRead - r.lastHandshake.value < 180 * SECOND)
              && (p.refreshed <==>
                    && (r.lastHandshake.None? || p.handshakeRead - r.lastHandshake.value >= 180 * SECOND)
                    && p.deviceRead - up > 180 * SECOND
                    && (lastRefresh.None? || p.refreshRead - lastRefresh.value >= 30 * SECOND))
              && lastRefresh' == if p.refreshed then Some(p.stamp) else lastRefresh
    {
      var isUp, handshakeRead := IsUp(r.lastHandshake);
      status := Status(isUp, mode, r.lastHandshake, r.rxBytes, r.txBytes);
      var deviceRead, stale := handshakeRead, false;
      if !isUp {
        deviceRead := clock.Read();
        stale := deviceRead - up > HANDSHAKE_TIMEOUT;
      }
      var refreshRead, due := deviceRead, false;
      if stale {
        refreshRead := clock.Read();
        due := lastRefresh.None? || refreshRead - lastRefresh.value >= REFRESH_INTERVAL;
      }
      var stamp, called := refreshRead, refreshRead;
      lastRefresh' := lastRefresh;
      if due {
        stamp := clock.Read();
        lastRefresh' := Some(stamp);
        called := clock.Read();
      }
      ghost var p := Poll(at, status, handshakeRead, deviceRead, refreshRead, stale, due, stamp, called);
      trace := trace + [Tick(p)];
      assert Front(trace) == old(trace) && Last(trace) == Tick(p);
    }

    /** supervise: until the device is lost or the context ends. */
    method Supervise(device: Device)
      requires Valid() && trace != [] && Last(trace).Attempt? && Last(trace).ok
      modifies this, clock
      ensures Valid() && trace != []
      ensures if device.Lost() then Last(trace).Lost? else Last(trace).Interrupted?
      ensures Marks(trace) ==
              old(Marks(trace)) + Polls(device.readings) + [if device.Lost() then DeviceLost else ContextEnded]
    {
      var ticker := clock.Read();
      var up := clock.Read();
      var lastRefresh: Option<int> := None;
      Record(Supervising(ticker, up));
      for i := 0 to |device.readings|
        invariant Valid() && Watching(trace)
        invariant Since(trace) == up && LastRefresh(trace) == lastRefresh
        invariant Last(trace).Supervising? ==> Last(trace).ticker == ticker
        invariant Marks(trace) == old(Marks(trace)) + Polls(device.readings[..i])
      {
        var at := clock.WaitUntil(ticker + CHECK_INTERVAL);
        lastRefresh := Check(device.readings[i], device.mode, at, up, lastRefresh);
        assert Polls(device.readings[..i + 1]) == Polls(device.readings[..i]) + [Polled(device.readings[i])];
      }
      assert device.readings[..|device.readings|] == device.readings;
      if device.Lost() {
        var at := clock.WaitUntil(ticker + CHECK_INTERVAL);
        Record(Lost(at));
      } else {
        var at := clock.Read();
        Record(Interrupted(at));
      }
    }

    /** Close the device, then publish that the tunnel is down. */
    method Teardown(mode: string)
      requires Valid() && trace != [] && (Last(trace).Lost? || Last(trace).Interrupted?)
      modifies this, clock
      ensures Valid() && trace != [] && Last(trace).Cleared? && Stopping(trace) == old(Last(trace).Interrupted?)
      ensures status == Status(false, mode, None, 0, 0) && Marks(trace) == old(Marks(trace))
    {
      var at := clock.Read();
      Record(Closed(at));
      ghost var closed := trace;
      var cleared := clock.Read();
      status := Status(false, mode, None, 0, 0);
      trace := trace + [Cleared(cleared, mode)];
      assert Front(trace) == closed && Stopping(closed) == Stopping(Front(closed));
    }

    method WaitOut(backoff: int, failedAt: int)
      requires Valid() && trace != [] && Last(trace).Attempt? && !Last(trace).ok && failedAt == EndOf(Last(trace))
      requires backoff == BackoffWait(Failures(trace) - 1)
      modifies this, clock
      ensures Valid() && Idle(trace) && !DeviceOpen(trace) && status == old(status)
      ensures Failures(trace) == old(Failures(trace)) && Marks(trace) == old(Marks(trace))
    {
      hide Published, Legal, Marks;
      var until := clock.WaitUntil(failedAt + backoff);
      Record(Backoff(clock.due, until));
    }

    /** A device's whole life after it opened. */
    method RunDevice(device: Device)
      requires Valid() && trace != [] && Last(trace).Attempt? && Last(trace).ok
      modifies this, clock
      ensures Valid() && Idle(trace) == device.Lost() && Failures(trace) == 0 && !DeviceOpen(trace) && !status.up
      ensures Marks(trace) ==
              old(Marks(trace)) + Polls(device.readings) + [if device.Lost() then DeviceLost else ContextEnded]
    {
      hide Legal, Published, Marks;
      Supervise(device);
      Teardown(device.mode);
    }

    /** One pass of Run's loop. */
    method PlayOpening(o: Opening, backoff: int) returns (backoff': int, returned: bool)
      requires Valid() && Idle(trace) && !status.up && backoff == BackoffWait(Failures(trace))
      modifies this, clock
      ensures Valid() && !DeviceOpen(trace) && !status.up && returned == EndsRun(o)
      ensures !returned ==> Idle(trace) && backoff' == BackoffWait(Failures(trace))
      ensures Marks(trace) == old(Marks(trace)) + MarksOf(o)
    {
      BackoffDoubles(Failures(trace));
      hide Legal, Published, Marks, BackoffWait;
      backoff', returned := backoff, false;
      var begun := clock.Read();
      var ended := clock.Read();
      Record(Attempt(begun, ended, o.Opened?));
      if o.Fails? {
        if o.cancel != GoOn {
          return backoff, true;
        }
        WaitOut(backoff, ended);
        backoff' := Min(backoff * 2, MAX_BACKOFF);
      } else {
        backoff' := SECOND;
        RunDevice(o.device);
        returned := !o.device.ending.IsLost?;
      }
    }

    /** Run, over any openings: it plays them in order up to the one during
        which the context ends, its trace is legal, and afterwards no device is
        open and the tunnel is published as down. */
    method Run(openings: seq<Opening>) returns (r: RunState, played: nat)
      requires Valid() && trace == [] && !initial.up
      modifies this, clock
      ensures Valid() && Opens(trace) == Closes(trace) && !status.up
      ensures played <= |openings| && Marks(trace) == Script(openings, played)
      ensures match r
              case Returned => played > 0 && EndsRun(openings[played - 1]) && GoesOn(openings, played - 1)
              case StillRunning => played == |openings| && GoesOn(openings, played)
      ensures forall k :: 0 <= k < played && (r == StillRunning || k < played - 1) ==>
                openings[k] == Fails(GoOn) || (openings[k].Opened? && openings[k].device.ending == IsLost)
      ensures r == Returned ==>
                openings[played - 1] != Fails(GoOn)
                && !(openings[played - 1].Opened? && openings[played - 1].device.ending == IsLost)
    {
      NotStarted(openings);
      hide Valid, Idle, Legal, Published, Failures, Stopping, DeviceOpen, Opens, Closes, BackoffWait, Marks, MarksOf, Script, EndsRun, GoesOn;
      var backoff := SECOND;
      played := 0;
      r := StillRunning;
      while played < |openings| && r.StillRunning?
        invariant Valid() && !DeviceOpen(trace) && !status.up && played <= |openings|
        invariant r.StillRunning? ==> Idle(trace) && backoff == BackoffWait(Failures(trace))
        invariant r.StillRunning? ==> GoesOn(openings, played)
        invariant r.Returned? ==> played > 0 && EndsRun(openings[played - 1]) && GoesOn(openings, played - 1)
        invariant Marks(trace) == Script(openings, played)
        decreases |openings| - played
      {
        var returned;
        backoff, returned := PlayOpening(openings[played], backoff);
        ScriptNext(openings, played);
        played := played + 1;
        r := if returned then Returned else StillRunning;
      }
      AllClosed();
      PlayedOut(openings);
    }

    lemma NotStarted(os: seq<Opening>)
      requires Valid() && trace == [] && !initial.up
      ensures GoesOn(os, 0) && Marks(trace) == Script(os, 0) && Idle(trace) && !DeviceOpen(trace)
      ensures BackoffWait(Failures(trace)) == SECOND && !status.up
    {
    }

    lemma PlayedOut(os: seq<Opening>)
      ensures forall k :: 0 <= k < |os| ==>
                (EndsRun(os[k]) <==> os[k] != Fails(GoOn) && !(os[k].Opened? && os[k].device.ending == IsLost))
      ensures forall n :: 0 <= n <= |os| && GoesOn(os, n) ==> forall k :: 0 <= k < n ==> !EndsRun(os[k])
    {
    }

    lemma AllClosed()
      requires Valid() && !DeviceOpen(trace)
      ensures Opens(trace) == Closes(trace)
    {
      OneDeviceAtATime(trace);
    }
  }

  lemma ScriptNext(os: seq<Opening>, n: nat)
    requires n < |os|
    ensures Script(os, n + 1) == Script(os, n) + MarksOf(os[n])
    ensures GoesOn(os, n + 1) <==> GoesOn(os, n) && !EndsRun(os[n])
  {
  }
}
