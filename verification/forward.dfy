/** internal/tunnel/forward.go: binding the tunnel port, and stepping aside
    when the service itself already listens there. */
module Forward {
  import opened Basics
  import opened Text
  import opened Config

  /** samePort: both addresses split, and their port texts are equal. */
  predicate SamePort(a: string, b: string) {
    var ap, bp := SplitHostPort(a), SplitHostPort(b);
    ap.Some? && bp.Some? && ap.value.port == bp.value.port
  }

  datatype ListenOutcome = Listening | AddressInUse | Unavailable

  /** The first attempt that does not call for another one. */
  function FirstAnswer(os: seq<ListenOutcome>): (d: nat)
    ensures d <= |os|
    ensures forall i :: 0 <= i < d ==> os[i] == Unavailable
    ensures d < |os| ==> os[d] != Unavailable
  {
    if os == [] then 0 else if os[0] != Unavailable then 0 else 1 + FirstAnswer(os[1..])
  }

  datatype AcceptOutcome = Connection | AcceptError

  datatype RunResult = Stopped | SteppedAside | WrongService | AcceptFailed | Cancelled

  datatype Forwarder = Forwarder(listenAddr: string, targetAddr: string)
  {
    /** bind: retried every two seconds; None when the context ends first,
        which is where the outcomes end. */
    method Bind(outcomes: seq<ListenOutcome>) returns (r: Option<ListenOutcome>, waited: nat)
      ensures r == if FirstAnswer(outcomes) < |outcomes| then Some(outcomes[FirstAnswer(outcomes)]) else None
      ensures waited == 2 * FirstAnswer(outcomes)
    {
      waited := 0;
      for i := 0 to |outcomes|
        invariant forall k :: 0 <= k < i ==> outcomes[k] == Unavailable
        invariant waited == 2 * i
      {
        if outcomes[i] != Unavailable {
          return Some(outcomes[i]), waited;
        }
        waited := waited + 2;
      }
      return None, waited;
    }

    /** Run never steps aside for a service on another port, never refuses one
        on the same port, and relays exactly the connections accepted before
        the first accept error. */
    method Run(outcomes: seq<ListenOutcome>, accepts: seq<AcceptOutcome>) returns (r: RunResult, relayed: nat)
      ensures r == Cancelled <==> FirstAnswer(outcomes) == |outcomes|
      ensures FirstAnswer(outcomes) < |outcomes| && outcomes[FirstAnswer(outcomes)].AddressInUse? ==>
                r == (if SamePort(listenAddr, targetAddr) then SteppedAside else WrongService) && relayed == 0
      ensures FirstAnswer(outcomes) < |outcomes| && outcomes[FirstAnswer(outcomes)].Listening? ==>
                && r in {Stopped, AcceptFailed} && (r == AcceptFailed <==> AcceptError in accepts)
                && relayed <= |accepts| && (forall i :: 0 <= i < relayed ==> accepts[i] == Connection)
                && (if r == Stopped then relayed == |accepts|
                    else relayed < |accepts| && accepts[relayed] == AcceptError)
    {
      relayed := 0;
      var bound, _ := Bind(outcomes);
      if bound.None? {
        return Cancelled, relayed;
      }
      if bound.value.AddressInUse? {
        if SamePort(listenAddr, targetAddr) {
          return SteppedAside, relayed;
        }
        return WrongService, relayed;
      }
      for i := 0 to |accepts|
        invariant relayed == i && forall k :: 0 <= k < i ==> accepts[k] == Connection
      {
        if accepts[i] == AcceptError {
          return AcceptFailed, relayed;
        }
        relayed := relayed + 1;
      }
      return Stopped, relayed;
    }
  }

  /** The forwarder run builds for a service: it listens on the tunnel address
      and dials the service, both on the service's port. */
  function ForwarderFor(tunnelIP: string, spec: ServiceSpec): Forwarder {
    Forwarder(JoinHostPort(tunnelIP, Itoa(spec.port)), JoinHostPort(spec.host, Itoa(spec.port)))
  }

  /** Joined addresses have the same port exactly when their port texts agree. */
  lemma SamePortOfJoined(h: string, p: string, k: string, q: string)
    requires NoBrackets(h) && NoBrackets(k)
    requires NoBrackets(p) && NoBrackets(q) && ':' !in p && ':' !in q
    ensures SamePort(JoinHostPort(h, p), JoinHostPort(k, q)) <==> p == q
  {
    SplitUndoesJoinHostPort(h, p);
    SplitUndoesJoinHostPort(k, q);
  }

  /** For every service list that parses, the forwarder built for a service
      listens on the tunnel address, dials the service's own host, and can never
      meet the port-mismatch refusal. */
  lemma StepAsideIsLegitimate(raw: string, healthPath: string, specs: seq<ServiceSpec>, i: nat, tunnelIP: string)
    requires ParsesTo(raw, healthPath, specs) && i < |specs| && NoBrackets(tunnelIP)
    ensures var f, port := ForwarderFor(tunnelIP, specs[i]), Itoa(specs[i].port);
            && SplitHostPort(f.listenAddr) == Some(HostPort(tunnelIP, port))
            && SplitHostPort(f.targetAddr) == Some(HostPort(specs[i].host, port))
            && SamePort(f.listenAddr, f.targetAddr)
  {
    var port := Itoa(specs[i].port);
    ParsedHost(raw, i);
    assert specs[i].host == HostAt(Entries(raw), i);
    SplitUndoesJoinHostPort(tunnelIP, port);
    SplitUndoesJoinHostPort(specs[i].host, port);
    SamePortOfJoined(tunnelIP, port, specs[i].host, port);
  }
}
