/** internal/heartbeat/heartbeat.go: the heartbeat loop and the tunnel part of
    its report. */
module Heartbeat {
  import opened Basics
  import opened Register
  import opened Supervisor

  /** What one beat meets: a 200 with the advertised interval (0 when the body
      gives none) and the speed-test flag, an API error, or no answer. */
  datatype Reply = Accepted(advertised: int, runSpeedtest: bool) | Refused(error: APIError) | NoAnswer

  /** The latest positive interval the gateway advertised, or the initial one,
      or a minute. */
  function IntervalAfter(initial: int, replies: seq<Reply>): (i: int)
    ensures i > 0
  {
    if replies == [] then if initial <= 0 then 60 else initial
    else
      match replies[|replies| - 1]
      case Accepted(advertised, _) =>
        if advertised > 0 then advertised else IntervalAfter(initial, replies[..|replies| - 1])
      case _ => IntervalAfter(initial, replies[..|replies| - 1])
  }

  /** IntervalAfter is the interval of the last reply that advertised one. */
  lemma {:induction false} IntervalIsLatest(initial: int, replies: seq<Reply>, k: nat)
    requires k < |replies| && replies[k].Accepted? && replies[k].advertised > 0
    requires forall j :: k < j < |replies| && replies[j].Accepted? ==> replies[j].advertised <= 0
    ensures IntervalAfter(initial, replies) == replies[k].advertised
  {
    if k < |replies| - 1 {
      IntervalIsLatest(initial, replies[..|replies| - 1], k);
    }
  }

  /** Until one does, it is the initial one, or a minute. */
  lemma {:induction false} IntervalIsInitial(initial: int, replies: seq<Reply>)
    requires forall j :: 0 <= j < |replies| && replies[j].Accepted? ==> replies[j].advertised <= 0
    ensures IntervalAfter(initial, replies) == if initial > 0 then initial else 60
  {
    if replies != [] {
      IntervalIsInitial(initial, replies[..|replies| - 1]);
    }
  }

  function SpeedtestRequests(replies: seq<Reply>): nat {
    if replies == [] then 0
    else
      var last := replies[|replies| - 1];
      SpeedtestRequests(replies[..|replies| - 1]) + if last.Accepted? && last.runSpeedtest then 1 else 0
  }

  datatype Ended = Revoked(error: APIError) | ContextDone

  class Sender {
    var interval: int
    var requested: nat   // calls of OnSpeedtestRequest

    constructor (interval: int)
      ensures this.interval == interval && requested == 0
    {
      this.interval, requested := interval, 0;
    }

    method Beat(reply: Reply) returns (error: Option<APIError>)
      modifies this
      ensures error == if reply.Refused? then Some(reply.error) else None
      ensures interval == if reply.Accepted? && reply.advertised > 0 then reply.advertised else old(interval)
      ensures requested == old(requested) + if reply.Accepted? && reply.runSpeedtest then 1 else 0
    {
      match reply {
        case Refused(e) => return Some(e);
        case NoAnswer => return None;
        case Accepted(advertised, runSpeedtest) =>
          if advertised > 0 {
            interval := advertised;
          }
          if runSpeedtest {
            requested := requested + 1;
          }
          return None;
      }
    }

    /** Run beats on, through every transient failure, until a reply revokes
        the agent or the context ends, which is where the replies end; the k-th
        beat waits for the latest interval advertised before it. */
    method Run(replies: seq<Reply>) returns (r: Ended, waits: seq<int>)
      modifies this
      ensures |waits| <= |replies|
      ensures forall k :: 0 <= k < |waits| ==> waits[k] == IntervalAfter(old(interval), replies[..k])
      ensures forall k :: 0 <= k < |waits| - 1 && replies[k].Refused? ==>
                replies[k].error.code !in {"invalid_token", "invalid_agent"}
      ensures if waits != [] && replies[|waits| - 1].Refused?
                 && replies[|waits| - 1].error.code in {"invalid_token", "invalid_agent"}
              then r == Revoked(replies[|waits| - 1].error)
              else r == ContextDone && |waits| == |replies|
      ensures requested == old(requested) + SpeedtestRequests(replies[..|waits|])
    {
      if interval <= 0 {
        interval := 60;
      }
      waits := [];
      for i := 0 to |replies|
        invariant |waits| == i && interval == IntervalAfter(old(interval), replies[..i])
        invariant forall k :: 0 <= k < i ==> waits[k] == IntervalAfter(old(interval), replies[..k])
        invariant forall k :: 0 <= k < i && replies[k].Refused? ==>
                    replies[k].error.code !in {"invalid_token", "invalid_agent"}
        invariant requested == old(requested) + SpeedtestRequests(replies[..i])
      {
        assert replies[..i + 1][..i] == replies[..i];
        waits := waits + [interval];
        var error := Beat(replies[i]);
        if error.Some? && error.value.Fatal() {
          return Revoked(error.value), waits;
        }
      }
      return ContextDone, waits;
    }
  }

  /** The tunnel object of a report; none when the tunnel is managed
      elsewhere. */
  datatype TunnelReport = TunnelReport(up: bool, handshakeUnix: int, rxBytes: int, txBytes: int)

  function ReportOf(source: Option<Status>): (r: Option<TunnelReport>)
    ensures r.Some? <==> source.Some?
    ensures r.Some? ==>
              && r.value.up == source.value.up && r.value.rxBytes == source.value.rxBytes
              && r.value.txBytes == source.value.txBytes
              && (source.value.lastHandshake.None? ==> r.value.handshakeUnix == 0)
              && (source.value.lastHandshake.Some? ==>
                    r.value.handshakeUnix * SECOND <= source.value.lastHandshake.value < (r.value.handshakeUnix + 1) * SECOND)
  {
    match source
    case None => None
    case Some(st) =>
      Some(TunnelReport(st.up, if st.lastHandshake.None? then 0 else st.lastHandshake.value / SECOND, st.rxBytes, st.txBytes))
  }

  /** A report of "up", whenever it is made during a run of the manager, is
      backed by a poll of the device that is open or just closing, whose
      handshake was then younger than three minutes. */
  lemma UpReportIsRecent(m: Manager, now: int)
    requires m.Valid() && !m.initial.up && now >= m.clock.now
    requires ReportOf(Some(m.status)).value.up
    ensures PublishedBy(m.trace).Some? && PublishedBy(m.trace).value < |m.trace|
    ensures m.trace[PublishedBy(m.trace).value].Tick?
    ensures var p := m.trace[PublishedBy(m.trace).value].poll;
            && p.handshakeRead <= now && p.status.lastHandshake.Some?
            && now - p.status.lastHandshake.value < HANDSHAKE_TIMEOUT + (now - p.handshakeRead)
            && ReportOf(Some(m.status)).value.handshakeUnix == p.status.lastHandshake.value / SECOND
    ensures DeviceOpen(m.trace) || Last(m.trace).Closed?
  {
    UpIsRecent(m.trace, m.initial, now);
  }
}
