/** internal/tunnel/forward.go: one relayed connection. Two pipes copy between
    the same two sockets at the same time, each half-closing its destination
    when its copy ends; the relay closes both sockets once both are done. */
module Relay {
  import opened Basics

  datatype Way = Up | Down   // Up copies from the accepted to the dialled socket

  datatype Phase = Copying | Ended | HalfClosed

  /** One direction: bytes the source has yet to give, bytes read but not
      written, bytes written. */
  datatype Pipe = Pipe(unread: seq<Byte>, inFlight: seq<Byte>, delivered: seq<Byte>, phase: Phase)

  datatype Socket = Socket(tcp: bool, writeShut: bool, closed: bool)

  /** `a` is the accepted socket, `b` the dialled one. */
  datatype Link = Link(up: Pipe, down: Pipe, a: Socket, b: Socket)

  function At(s: Link, w: Way): Pipe { if w == Up then s.up else s.down }
  function Source(s: Link, w: Way): Socket { if w == Up then s.a else s.b }
  function Sink(s: Link, w: Way): Socket { if w == Up then s.b else s.a }

  function With(s: Link, w: Way, p: Pipe): Link { if w == Up then s.(up := p) else s.(down := p) }
  function WithSink(s: Link, w: Way, k: Socket): Link { if w == Up then s.(b := k) else s.(a := k) }

  datatype Label =
    | Read(way: Way, n: nat)
    | Write(way: Way, n: nat)
    | Eof(way: Way)
    | Fails(way: Way)      // a read or write error on an open socket
    | Cut(way: Way)        // a read or write on a socket this relay has closed
    | HalfClose(way: Way)
    | CloseBoth

  // ---------- one pipe by itself ----------

  /** A pipe's own steps, with no regard to the sockets. */
  function PipeNext(p: Pipe, l: Label): Option<Pipe> {
    match l
    case Read(_, n) =>
      if p.phase.Copying? && p.inFlight == [] && 1 <= n <= |p.unread|
      then Some(p.(inFlight := p.unread[..n], unread := p.unread[n..])) else None
    case Write(_, n) =>
      if p.phase.Copying? && 1 <= n <= |p.inFlight|
      then Some(p.(delivered := p.delivered + p.inFlight[..n], inFlight := p.inFlight[n..])) else None
    case Eof(_) =>
      if p.phase.Copying? && p.inFlight == [] && p.unread == [] then Some(p.(phase := Ended)) else None
    case Fails(_) => if p.phase.Copying? then Some(p.(phase := Ended)) else None
    case Cut(_) => if p.phase.Copying? then Some(p.(phase := Ended)) else None
    case HalfClose(_) => if p.phase.Ended? then Some(p.(phase := HalfClosed)) else None
    case CloseBoth => None
  }

  // ---------- both pipes on shared sockets ----------

  predicate Finished(s: Link) { s.a.closed && s.b.closed }

  /** Whether the sockets let the step happen. */
  predicate Allowed(s: Link, l: Label) {
    match l
    case Read(w, _) => !Source(s, w).closed
    case Write(w, _) => !Sink(s, w).closed && !Sink(s, w).writeShut
    case Eof(w) => !Source(s, w).closed
    case Cut(w) => Source(s, w).closed || Sink(s, w).closed || Sink(s, w).writeShut
    case _ => true
  }

  function Next(s: Link, l: Label): Option<Link> {
    if l.CloseBoth? then
      if s.up.phase.HalfClosed? && s.down.phase.HalfClosed? && !Finished(s)
      then Some(s.(a := s.a.(closed := true), b := s.b.(closed := true))) else None
    else
      match PipeNext(At(s, l.way), l)
      case None => None
      case Some(p) =>
        if !Allowed(s, l) then None
        else if l.HalfClose? then
          var k := Sink(s, l.way);
          Some(WithSink(With(s, l.way, p), l.way, if k.tcp then k.(writeShut := true) else k.(closed := true)))
        else Some(With(s, l.way, p))
  }

  function Run(s: Link, ls: seq<Label>): Option<Link>
    decreases |ls|
  {
    if ls == [] then Some(s)
    else
      match Next(s, ls[0])
      case None => None
      case Some(t) => Run(t, ls[1..])
  }

  /** A relay at the start: both ends open, `up` and `down` the streams the two
      ends will send before they finish. */
  function Opened(up: seq<Byte>, down: seq<Byte>, aTcp: bool, bTcp: bool): Link {
    Link(Pipe(up, [], [], Copying), Pipe(down, [], [], Copying),
         Socket(aTcp, false, false), Socket(bTcp, false, false))
  }

  // ---------- conservation ----------

  function Stream(p: Pipe): seq<Byte> { p.delivered + p.inFlight + p.unread }

  lemma PipeConserves(p: Pipe, l: Label)
    requires PipeNext(p, l).Some?
    ensures Stream(PipeNext(p, l).value) == Stream(p)
  {
    if l.Read? {
      assert p.unread == p.unread[..l.n] + p.unread[l.n..];
    } else if l.Write? {
      assert p.inFlight == p.inFlight[..l.n] + p.inFlight[l.n..];
    }
  }

  lemma StepConserves(s: Link, l: Label, w: Way)
    requires Next(s, l).Some?
    ensures Stream(At(Next(s, l).value, w)) == Stream(At(s, w))
  {
    if !l.CloseBoth? {
      PipeConserves(At(s, l.way), l);
    }
    hide PipeNext, Stream;
  }

  /** No interleaving, chunking, error or close ever loses, repeats or reorders
      a byte: what was delivered, followed by what is in flight and what is
      unread, is the source's stream. */
  lemma {:induction false} RunConserves(s: Link, ls: seq<Label>, w: Way)
    requires Run(s, ls).Some?
    ensures Stream(At(Run(s, ls).value, w)) == Stream(At(s, w))
    decreases |ls|
  {
    if ls != [] {
      StepConserves(s, ls[0], w);
      RunConserves(Next(s, ls[0]).value, ls[1..], w);
    }
  }

  // ---------- half-close ----------

  /** What the order of closes guarantees while both sockets can half-close. */
  predicate Orderly(s: Link) {
    && s.a.tcp && s.b.tcp
    && (s.b.writeShut <==> s.up.phase.HalfClosed?)
    && (s.a.writeShut <==> s.down.phase.HalfClosed?)
    && (s.a.closed || s.b.closed ==> s.up.phase.HalfClosed? && s.down.phase.HalfClosed? && Finished(s))
  }

  lemma {:induction false} RunKeepsOrder(s: Link, ls: seq<Label>)
    requires Orderly(s) && Run(s, ls).Some?
    ensures Orderly(Run(s, ls).value)
    decreases |ls|
  {
    if ls != [] {
      RunKeepsOrder(Next(s, ls[0]).value, ls[1..]);
    }
  }

  predicate Faultless(ls: seq<Label>, w: Way) {
    forall i :: 0 <= i < |ls| && !ls[i].CloseBoth? && ls[i].way == w ==> !ls[i].Fails? && !ls[i].Cut?
  }

  /** A pipe that has ended without an error has delivered everything. */
  predicate Drained(p: Pipe) { !p.phase.Copying? ==> p.inFlight == [] && p.unread == [] }

  lemma {:induction false} FaultlessDrains(s: Link, ls: seq<Label>, w: Way)
    requires Run(s, ls).Some? && Drained(At(s, w)) && Faultless(ls, w)
    ensures Drained(At(Run(s, ls).value, w))
    decreases |ls|
  {
    if ls != [] {
      FaultlessDrains(Next(s, ls[0]).value, ls[1..], w);
    }
  }

  /** Both directions over TCP, at any point of any run: an end that sees EOF
      (its side is shut or closed) has received, unless an error struck that
      very direction, the other end's whole stream; and neither socket is
      closed before both pipes are done. */
  lemma EofMeansComplete(up: seq<Byte>, down: seq<Byte>, ls: seq<Label>, w: Way)
    requires Run(Opened(up, down, true, true), ls).Some? && Faultless(ls, w)
    ensures var s := Run(Opened(up, down, true, true), ls).value;
            && (Sink(s, w).writeShut || Sink(s, w).closed ==> At(s, w).delivered == if w == Up then up else down)
            && (s.a.closed || s.b.closed ==> s.up.phase.HalfClosed? && s.down.phase.HalfClosed?)
  {
    var s0 := Opened(up, down, true, true);
    RunKeepsOrder(s0, ls);
    FaultlessDrains(s0, ls, w);
    RunConserves(s0, ls, w);
    var p := At(Run(s0, ls).value, w);
    if !p.phase.Copying? {
      assert Stream(p) == p.delivered;
    }
  }

  // ---------- independence of the two directions ----------

  /** The steps of one direction. */
  function Only(ls: seq<Label>, w: Way): seq<Label> {
    if ls == [] then []
    else (if !ls[0].CloseBoth? && ls[0].way == w then [ls[0]] else []) + Only(ls[1..], w)
  }

  function PipeRun(p: Pipe, ls: seq<Label>): Option<Pipe>
    decreases |ls|
  {
    if ls == [] then Some(p)
    else
      match PipeNext(p, ls[0])
      case None => None
      case Some(q) => PipeRun(q, ls[1..])
  }

  /** Over TCP a direction behaves as if it were alone: a step of it is possible
      exactly when its own pipe allows it, and is never a cut. */
  lemma DirectionsIndependent(s: Link, l: Label)
    requires Orderly(s) && !l.CloseBoth?
    ensures Next(s, l).Some? <==> PipeNext(At(s, l.way), l).Some? && !l.Cut?
    ensures Next(s, l).Some? ==>
              && At(Next(s, l).value, l.way) == PipeNext(At(s, l.way), l).value
              && (forall w :: w != l.way ==> At(Next(s, l).value, w) == At(s, w))
  {
  }

  /** Whatever the other direction does, and however the two interleave, the
      outcome of a direction is the outcome of its own steps. */
  lemma {:induction false} RunProjects(s: Link, ls: seq<Label>, w: Way)
    requires Orderly(s) && Run(s, ls).Some?
    ensures PipeRun(At(s, w), Only(ls, w)) == Some(At(Run(s, ls).value, w))
    decreases |ls|
  {
    if ls != [] {
      var t := Next(s, ls[0]).value;
      RunKeepsOrder(s, [ls[0]]);
      assert Run(s, [ls[0]]) == Some(t) by { assert [ls[0]][1..] == []; }
      RunProjects(t, ls[1..], w);
      if !ls[0].CloseBoth? && ls[0].way == w {
        assert Only(ls, w)[1..] == Only(ls[1..], w);
      } else {
        assert Only(ls, w) == Only(ls[1..], w);
      }
    }
  }

  /** And conversely any two directions' own steps can be interleaved: whatever
      each pipe can do alone, the two can do together, in any order. */
  lemma {:induction false} RunsInterleave(s: Link, ls: seq<Label>)
    requires Orderly(s) && forall i :: 0 <= i < |ls| ==> !ls[i].CloseBoth? && !ls[i].Cut?
    requires forall w :: PipeRun(At(s, w), Only(ls, w)).Some?
    ensures Run(s, ls).Some?
    ensures forall w :: Some(At(Run(s, ls).value, w)) == PipeRun(At(s, w), Only(ls, w))
    decreases |ls|
  {
    if ls != [] {
      var v := ls[0].way;
      assert Only(ls, v)[0] == ls[0] && Only(ls, v)[1..] == Only(ls[1..], v);
      assert PipeRun(At(s, v), Only(ls, v)).Some?;
      DirectionsIndependent(s, ls[0]);
      var t := Next(s, ls[0]).value;
      RunKeepsOrder(s, [ls[0]]);
      assert Run(s, [ls[0]]) == Some(t) by { assert [ls[0]][1..] == []; }
      forall w
        ensures PipeRun(At(t, w), Only(ls[1..], w)) == PipeRun(At(s, w), Only(ls, w))
      {
        if w != v {
          assert Only(ls, w) == Only(ls[1..], w);
        }
      }
      assert forall i :: 0 <= i < |ls| - 1 ==> ls[1..][i] == ls[i + 1];
      hide PipeNext, Next, Only, PipeRun, Orderly;
      RunsInterleave(t, ls[1..]);
    }
  }

  /** The steps that take one direction from its start to its half-close. */
  function DrainSteps(w: Way, n: nat): seq<Label> {
    if n == 0 then [Eof(w), HalfClose(w)] else [Read(w, n), Write(w, n), Eof(w), HalfClose(w)]
  }

  /** That needs both sockets to be TCP: when one cannot half-close, the end of
      one stream closes it fully and cuts the other direction off, and there is
      an error-free run where that happens. */
  lemma NeverCutIffTcp(up: seq<Byte>, down: seq<Byte>, aTcp: bool, bTcp: bool)
    ensures aTcp && bTcp <==>
            forall ls, w :: Run(Opened(up, down, aTcp, bTcp), ls).Some? ==>
                              Next(Run(Opened(up, down, aTcp, bTcp), ls).value, Cut(w)).None?
  {
    var s := Opened(up, down, aTcp, bTcp);
    if aTcp && bTcp {
      forall ls, w | Run(s, ls).Some?
        ensures Next(Run(s, ls).value, Cut(w)).None?
      {
        RunKeepsOrder(s, ls);
        DirectionsIndependent(Run(s, ls).value, Cut(w));
      }
    } else {
      var w, n := if bTcp then Down else Up, if bTcp then |down| else |up|;
      DrainRuns(s, w, if bTcp then down else up);
      assert Next(Run(s, DrainSteps(w, n)).value, Cut(if bTcp then Up else Down)).Some?;
    }
  }

  lemma EndRuns(s: Link, w: Way)
    requires At(s, w) == Pipe([], [], At(s, w).delivered, Copying) && !Source(s, w).closed
    ensures var t := Run(s, [Eof(w), HalfClose(w)]);
            && t.Some? && At(t.value, w) == At(s, w).(phase := HalfClosed)
            && (forall v :: v != w ==> At(t.value, v) == At(s, v))
            && (!Sink(s, w).tcp ==> Sink(t.value, w).closed)
  {
    var t1 := Next(s, Eof(w)).value;
    var t2 := Next(t1, HalfClose(w)).value;
    assert Run(t2, []) == Some(t2);
    assert [HalfClose(w)][1..] == [] && Run(t1, [HalfClose(w)]) == Some(t2);
    assert [Eof(w), HalfClose(w)][1..] == [HalfClose(w)];
  }

  lemma DrainRuns(s: Link, w: Way, stream: seq<Byte>)
    requires At(s, w) == Pipe(stream, [], [], Copying)
    requires !Source(s, w).closed && !Sink(s, w).closed && !Sink(s, w).writeShut
    ensures var t := Run(s, DrainSteps(w, |stream|));
            && t.Some? && At(t.value, w) == Pipe([], [], stream, HalfClosed)
            && (forall v :: v != w ==> At(t.value, v) == At(s, v))
            && (!Sink(s, w).tcp ==> Sink(t.value, w).closed)
  {
    var n := |stream|;
    if n == 0 {
      EndRuns(s, w);
    } else {
      var t1, t2 := With(s, w, Pipe([], stream, [], Copying)), With(s, w, Pipe([], [], stream, Copying));
      assert stream[..n] == stream && stream[n..] == [] && [] + stream == stream;
      assert Next(s, Read(w, n)) == Some(t1);
      assert Next(t1, Write(w, n)) == Some(t2);
      EndRuns(t2, w);
      TwoThenRest(s, Read(w, n), Write(w, n), t1, t2, [Eof(w), HalfClose(w)]);
      assert DrainSteps(w, n) == [Read(w, n), Write(w, n)] + [Eof(w), HalfClose(w)];
    }
  }

  lemma TwoThenRest(s: Link, l: Label, m: Label, t: Link, u: Link, rest: seq<Label>)
    requires Next(s, l) == Some(t) && Next(t, m) == Some(u)
    ensures Run(s, [l, m] + rest) == Run(u, rest)
  {
    hide Next;
    var ls := [l, m] + rest;
    assert ls[1..] == [m] + rest && ls[1..][1..] == rest;
  }

  // ---------- termination ----------

  function PipeMeasure(p: Pipe): nat {
    2 * |p.unread| + |p.inFlight| + (match p.phase case Copying => 2 case Ended => 1 case HalfClosed => 0)
  }

  function Measure(s: Link): nat {
    PipeMeasure(s.up) + PipeMeasure(s.down) + if Finished(s) then 0 else 1
  }

  lemma StepDecreases(s: Link, l: Label)
    requires Next(s, l).Some?
    ensures Measure(Next(s, l).value) < Measure(s)
  {
  }

  /** A step that some direction can always take until both are closed. */
  function SomeStep(s: Link): Label
    requires !Finished(s)
  {
    if s.up.phase.HalfClosed? && s.down.phase.HalfClosed? then CloseBoth
    else
      var w := if s.up.phase.HalfClosed? then Down else Up;
      var p := At(s, w);
      if p.phase.Ended? then HalfClose(w)
      else if p.inFlight != [] then Write(w, |p.inFlight|)
      else if p.unread != [] then Read(w, |p.unread|)
      else Eof(w)
  }

  /** On finite streams every relay ends, and ends with both sockets closed: a
      run cannot be longer than its measure, and one that cannot go on is
      finished. */
  lemma {:induction false} EveryRunEnds(s: Link, ls: seq<Label>)
    requires Orderly(s) && Run(s, ls).Some?
    ensures |ls| <= Measure(s)
    ensures (forall l :: Next(Run(s, ls).value, l).None?) ==> Finished(Run(s, ls).value)
    decreases |ls|
  {
    if ls == [] {
      if !Finished(s) {
        assert Next(s, SomeStep(s)).Some?;
      }
    } else {
      StepDecreases(s, ls[0]);
      RunKeepsOrder(s, [ls[0]]);
      assert Run(s, [ls[0]]) == Some(Next(s, ls[0]).value) by { assert [ls[0]][1..] == []; }
      EveryRunEnds(Next(s, ls[0]).value, ls[1..]);
    }
  }

  lemma {:induction false} RunThenStep(s: Link, ls: seq<Label>, l: Label)
    requires Run(s, ls).Some?
    ensures Run(s, ls + [l]) == Next(Run(s, ls).value, l)
    decreases |ls|
  {
    if ls == [] {
      assert [l][1..] == [];
    } else {
      RunThenStep(Next(s, ls[0]).value, ls[1..], l);
      assert (ls + [l])[1..] == ls[1..] + [l];
    }
  }

  // ---------- the code ----------

  class Conn {
    const tcp: bool
    var inbound: seq<Byte>    // what the peer has yet to be read
    var outbound: seq<Byte>   // what was written to the peer
    var writeShut: bool
    var closed: bool

    constructor (tcp: bool, inbound: seq<Byte>)
      ensures this.tcp == tcp && this.inbound == inbound && outbound == [] && !writeShut && !closed
    {
      this.tcp, this.inbound, outbound, writeShut, closed := tcp, inbound, [], false, false;
    }

    function View(): Socket reads this { Socket(tcp, writeShut, closed) }
  }

  /** One step of the goroutine `pipe(dst, src)`: io.Copy reads a chunk, writes
      part of one, meets EOF or an error; after the copy the destination is
      half-closed, or closed when it is no TCP connection. */
  method PipeStep(w: Way, src: Conn, dst: Conn, buffer: seq<Byte>, phase: Phase, reliable: bool)
    returns (buffer': seq<Byte>, phase': Phase, ghost l: Label)
    requires src != dst && !phase.HalfClosed?
    modifies src, dst
    ensures !l.CloseBoth? && !l.Cut? && l.way == w && (reliable ==> !l.Fails?)
    ensures PipeNext(Pipe(old(src.inbound), buffer, old(dst.outbound), phase), l)
            == Some(Pipe(src.inbound, buffer', dst.outbound, phase'))
    ensures src.outbound == old(src.outbound) && dst.inbound == old(dst.inbound)
    ensures src.View() == old(src.View())
    ensures dst.View() == if !l.HalfClose? then old(dst.View())
                          else if dst.tcp then old(dst.View()).(writeShut := true)
                          else old(dst.View()).(closed := true)
  {
    buffer', phase' := buffer, phase;
    if phase.Ended? {
      if dst.tcp {
        dst.writeShut := true;
      } else {
        dst.closed := true;
      }
      return buffer, HalfClosed, HalfClose(w);
    }
    if !reliable {
      if * {
        return buffer, Ended, Fails(w);
      }
    }
    if buffer != [] {
      var n: nat :| 1 <= n <= |buffer|;
      dst.outbound := dst.outbound + buffer[..n];
      return buffer[n..], Copying, Write(w, n);
    }
    if src.inbound == [] {
      return buffer, Ended, Eof(w);
    }
    var n: nat :| 1 <= n <= |src.inbound|;
    buffer' := src.inbound[..n];
    src.inbound := src.inbound[n..];
    return buffer', Copying, Read(w, n);
  }

  ghost function LinkOf(src: Conn, dst: Conn, up: seq<Byte>, down: seq<Byte>, upPhase: Phase, downPhase: Phase): Link
    reads src, dst
  {
    Link(Pipe(src.inbound, up, dst.outbound, upPhase), Pipe(dst.inbound, down, src.outbound, downPhase),
         src.View(), dst.View())
  }

  /** relay: whichever goroutine the scheduler picks at each point, the relay
      comes to its end, has performed a run of the protocol above, leaves both
      sockets closed, and has delivered a prefix of each stream to the other
      side: all of it unless an I/O error struck. */
  method RelayConn(src: Conn, dst: Conn, dialled: bool, reliable: bool) returns (ghost log: seq<Label>)
    requires src != dst && src.tcp && dst.tcp
    requires !src.writeShut && !src.closed && !dst.writeShut && !dst.closed
    requires src.outbound == [] && dst.outbound == []
    modifies src, dst
    ensures src.closed
    ensures !dialled ==> dst.View() == old(dst.View()) && dst.outbound == [] && src.outbound == []
    ensures dialled ==>
              && dst.closed
              && dst.outbound <= old(src.inbound) && src.outbound <= old(dst.inbound)
              && (reliable ==> dst.outbound == old(src.inbound) && src.outbound == old(dst.inbound))
    ensures dialled ==>
              var end := Run(Opened(old(src.inbound), old(dst.inbound), true, true), log);
              end.Some? && end.value.a == src.View() && end.value.b == dst.View()
              && end.value.up.delivered == dst.outbound && end.value.down.delivered == src.outbound
  {
    log := [];
    if !dialled {
      src.closed := true;
      return;
    }
    hide Next, PipeNext;
    var up, down: seq<Byte> := [], [];
    var upPhase, downPhase := Copying, Copying;
    ghost var start := LinkOf(src, dst, up, down, upPhase, downPhase);
    while !upPhase.HalfClosed? || !downPhase.HalfClosed?
      invariant Run(start, log) == Some(LinkOf(src, dst, up, down, upPhase, downPhase))
      invariant Orderly(LinkOf(src, dst, up, down, upPhase, downPhase))
      invariant !src.closed && !dst.closed
      invariant reliable ==> Faultless(log, Up) && Faultless(log, Down)
      decreases Measure(LinkOf(src, dst, up, down, upPhase, downPhase))
    {
      ghost var s := LinkOf(src, dst, up, down, upPhase, downPhase);
      ghost var l;
      var pickUp: bool :| (pickUp ==> !upPhase.HalfClosed?) && (!pickUp ==> !downPhase.HalfClosed?);
      if pickUp {
        up, upPhase, l := PipeStep(Up, src, dst, up, upPhase, reliable);
      } else {
        down, downPhase, l := PipeStep(Down, dst, src, down, downPhase, reliable);
      }
      OneMore(start, log, s, l, LinkOf(src, dst, up, down, upPhase, downPhase));
      log := log + [l];
    }
    ghost var s := LinkOf(src, dst, up, down, upPhase, downPhase);
    src.closed, dst.closed := true, true;
    Closing(start, log, s, reliable, old(src.inbound), old(dst.inbound));
    log := log + [CloseBoth];
  }

  /** A pipe's step, seen on the link. */
  lemma OneMore(start: Link, log: seq<Label>, s: Link, l: Label, t: Link)
    requires Run(start, log) == Some(s) && Orderly(s) && !Finished(s)
    requires !l.CloseBoth? && !l.Cut? && PipeNext(At(s, l.way), l) == Some(At(t, l.way))
    requires forall v :: v != l.way ==> At(t, v) == At(s, v)
    requires Source(t, l.way) == Source(s, l.way)
    requires Sink(t, l.way) == if l.HalfClose? then Sink(s, l.way).(writeShut := true) else Sink(s, l.way)
    ensures Run(start, log + [l]) == Some(t) && Orderly(t) && Measure(t) < Measure(s)
  {
    DirectionsIndependent(s, l);
    RunThenStep(start, log, l);
    StepDecreases(s, l);
    RunKeepsOrder(s, [l]);
    assert [l][1..] == [];
    assert Next(s, l) == Some(t) by { assert At(t, Up) == t.up && At(t, Down) == t.down; }
  }

  lemma Closing(start: Link, log: seq<Label>, s: Link, reliable: bool, up: seq<Byte>, down: seq<Byte>)
    requires Run(start, log) == Some(s) && Orderly(s) && !Finished(s)
    requires start == Opened(up, down, true, true)
    requires s.up.phase.HalfClosed? && s.down.phase.HalfClosed?
    requires reliable ==> Faultless(log, Up) && Faultless(log, Down)
    ensures Run(start, log + [CloseBoth]) == Some(s.(a := s.a.(closed := true), b := s.b.(closed := true)))
    ensures s.up.delivered <= up && s.down.delivered <= down
    ensures reliable ==> s.up.delivered == up && s.down.delivered == down
  {
    RunThenStep(start, log, CloseBoth);
    RunConserves(start, log, Up);
    RunConserves(start, log, Down);
    assert Stream(start.up) == up && Stream(start.down) == down;
    if reliable {
      EofMeansComplete(up, down, log, Up);
      EofMeansComplete(up, down, log, Down);
    }
  }
}
