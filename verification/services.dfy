/** cmd/agent/main.go: comparing port sets and joining the registered
    services with the configured ones. */
module Services {
  import opened Basics
  import opened Config
  import opened Register

  function PortsOfSpecs(specs: seq<ServiceSpec>): seq<int>
  {
    seq(|specs|, i requires 0 <= i < |specs| => specs[i].port)
  }

  method SpecPorts(specs: seq<ServiceSpec>) returns (ports: seq<int>)
    ensures ports == PortsOfSpecs(specs)
    ensures |ports| == |specs| && forall i :: 0 <= i < |specs| ==> ports[i] == specs[i].port
  {
    ports := [];
    for i := 0 to |specs|
      invariant ports == PortsOfSpecs(specs)[..i]
    {
      ports := ports + [specs[i].port];
    }
  }

  function Tally(m: map<int, int>, p: int): int { if p in m then m[p] else 0 }

  /** `seen` holds how much more often each port occurs in a than in b. */
  ghost predicate Counts(seen: map<int, int>, a: seq<int>, b: seq<int>) {
    && (forall p :: Tally(seen, p) + multiset(b)[p] == multiset(a)[p])
    && (forall p :: p in a || p in b ==> p in seen)
  }

  lemma CountsUp(seen: map<int, int>, a: seq<int>, i: nat)
    requires i < |a| && Counts(seen, a[..i], [])
    ensures Counts(seen[a[i] := Tally(seen, a[i]) + 1], a[..i + 1], [])
  {
    assert a[..i + 1] == a[..i] + [a[i]];
  }

  lemma CountsDown(seen: map<int, int>, a: seq<int>, b: seq<int>, i: nat)
    requires i < |b| && Counts(seen, a, b[..i])
    ensures Counts(seen[b[i] := Tally(seen, b[i]) - 1], a, b[..i + 1])
  {
    assert b[..i + 1] == b[..i] + [b[i]];
  }

  lemma ZeroMeansSame(seen: map<int, int>, a: seq<int>, b: seq<int>)
    requires Counts(seen, a, b)
    ensures (forall p :: p in seen ==> seen[p] == 0) <==> multiset(a) == multiset(b)
  {
    if forall p :: p in seen ==> seen[p] == 0 {
      forall p: int
        ensures multiset(a)[p] == multiset(b)[p]
      {
        assert Tally(seen, p) == 0;
      }
      assert multiset(a) == multiset(b);
    }
    if multiset(a) == multiset(b) {
      forall p | p in seen
        ensures seen[p] == 0
      {
        assert Tally(seen, p) == 0;
      }
    }
  }

  /** Order does not matter, multiplicity does. */
  method SamePorts(a: seq<int>, b: seq<int>) returns (same: bool)
    ensures same <==> multiset(a) == multiset(b)
  {
    if |a| != |b| {
      assert |multiset(a)| != |multiset(b)|;
      return false;
    }
    var seen: map<int, int> := map[];
    assert Counts(seen, a[..0], []);
    hide Counts, Tally;
    for i := 0 to |a|
      invariant Counts(seen, a[..i], [])
    {
      CountsUp(seen, a, i);
      seen := seen[a[i] := Tally(seen, a[i]) + 1];
    }
    assert a[..|a|] == a && b[..0] == [];
    for i := 0 to |b|
      invariant Counts(seen, a, b[..i])
    {
      CountsDown(seen, a, b, i);
      seen := seen[b[i] := Tally(seen, b[i]) - 1];
    }
    assert b[..|b|] == b;
    ZeroMeansSame(seen, a, b);
    var rest := seen.Keys;
    while rest != {}
      invariant rest <= seen.Keys
      invariant forall p :: p in seen && p !in rest ==> seen[p] == 0
      decreases rest
    {
      NotEmpty(rest);
      var p :| p in rest;
      if seen[p] != 0 {
        return false;
      }
      rest := rest - {p};
    }
    return true;
  }

  lemma NotEmpty(s: set<int>)
    ensures s == {} || exists p :: p in s
  {
    if forall p :: p !in s {
      assert s == {};
    }
  }

  /** One service at run time: the local spec under its gateway name. */
  datatype RunService = RunService(spec: ServiceSpec, name: string, subdomain: string)

  /** The last spec configured for a port. */
  function SpecFor(specs: seq<ServiceSpec>, port: int): Option<ServiceSpec> {
    if specs == [] then None
    else if specs[|specs| - 1].port == port then Some(specs[|specs| - 1])
    else SpecFor(specs[..|specs| - 1], port)
  }

  lemma {:induction false} SpecForFound(specs: seq<ServiceSpec>, port: int)
    ensures SpecFor(specs, port).Some? <==> port in PortsOfSpecs(specs)
    ensures SpecFor(specs, port).Some? ==> SpecFor(specs, port).value in specs && SpecFor(specs, port).value.port == port
  {
    if specs != [] {
      var front := specs[..|specs| - 1];
      SpecForFound(front, port);
      assert PortsOfSpecs(specs) == PortsOfSpecs(front) + [specs[|specs| - 1].port];
    }
  }

  /** Of several specs for a port the last one counts. */
  lemma {:induction false} LastSpecWins(specs: seq<ServiceSpec>, i: nat)
    requires i < |specs| && forall j :: i < j < |specs| ==> specs[j].port != specs[i].port
    ensures SpecFor(specs, specs[i].port) == Some(specs[i])
  {
    if i < |specs| - 1 {
      LastSpecWins(specs[..|specs| - 1], i);
    }
  }

  /** The registered services whose port is configured, in their own order. */
  function Joined(specs: seq<ServiceSpec>, services: seq<ServiceState>): (out: seq<RunService>) {
    if services == [] then []
    else
      var last := services[|services| - 1];
      var front := Joined(specs, services[..|services| - 1]);
      match SpecFor(specs, last.port)
      case None => front
      case Some(sp) => front + [RunService(sp, last.name, last.subdomain)]
  }

  method BuildServices(specs: seq<ServiceSpec>, services: seq<ServiceState>)
    returns (r: Result<seq<RunService>, string>)
    ensures r.Success? <==> exists i :: 0 <= i < |services| && services[i].port in PortsOfSpecs(specs)
    ensures r.Success? ==> r.value == Joined(specs, services)
  {
    var byPort: map<int, ServiceSpec> := map[];
    for i := 0 to |specs|
      invariant forall p :: p in byPort <==> SpecFor(specs[..i], p).Some?
      invariant forall p :: p in byPort ==> SpecFor(specs[..i], p) == Some(byPort[p])
    {
      assert specs[..i + 1][..i] == specs[..i];
      byPort := byPort[specs[i].port := specs[i]];
    }
    assert specs[..|specs|] == specs;
    var out: seq<RunService> := [];
    for i := 0 to |services|
      invariant out == Joined(specs, services[..i])
      invariant out != [] <==> exists j :: 0 <= j < i && services[j].port in PortsOfSpecs(specs)
    {
      assert services[..i + 1][..i] == services[..i];
      SpecForFound(specs, services[i].port);
      if services[i].port !in byPort {
        continue;
      }
      out := out + [RunService(byPort[services[i].port], services[i].name, services[i].subdomain)];
    }
    assert services[..|services|] == services;
    if |out| == 0 {
      return Failure("no services resolved from the registration");
    }
    return Success(out);
  }

  /** The positions of the registered services whose port is configured. */
  function Kept(specs: seq<ServiceSpec>, services: seq<ServiceState>): (at: seq<nat>)
    ensures forall k :: 0 <= k < |at| ==> at[k] < |services|
    ensures forall k, l :: 0 <= k < l < |at| ==> at[k] < at[l]
  {
    if services == [] then []
    else
      var n := |services| - 1;
      Kept(specs, services[..n]) + if services[n].port in PortsOfSpecs(specs) then [n] else []
  }

  lemma {:induction false} KeptComplete(specs: seq<ServiceSpec>, services: seq<ServiceState>, i: nat)
    requires i < |services|
    ensures i in Kept(specs, services) <==> services[i].port in PortsOfSpecs(specs)
  {
    var n := |services| - 1;
    if i < n {
      KeptComplete(specs, services[..n], i);
    }
  }

  /** The join keeps exactly the registered services with a configured port,
      in registration order, each under its own name and with a spec of its
      own port. */
  lemma {:induction false} JoinedIsFilter(specs: seq<ServiceSpec>, services: seq<ServiceState>, k: nat)
    ensures |Joined(specs, services)| == |Kept(specs, services)|
    ensures k < |Kept(specs, services)| ==>
              var rs, ss := Joined(specs, services)[k], services[Kept(specs, services)[k]];
              rs.spec in specs && rs.spec.port == ss.port && rs.name == ss.name && rs.subdomain == ss.subdomain
  {
    if services != [] {
      var n := |services| - 1;
      JoinedIsFilter(specs, services[..n], k);
      SpecForFound(specs, services[n].port);
    }
  }

  /** Exactly one running service serves this spec. */
  predicate RunsOnce(spec: ServiceSpec, running: seq<RunService>) {
    exists k :: 0 <= k < |running| && running[k].spec == spec
                && forall l :: 0 <= l < |running| && l != k ==> running[l].spec != spec
  }

  /** When the registration covers the configured ports once each, every
      configured spec runs exactly once, with its own host and port. */
  lemma EverySpecRunsOnce(specs: seq<ServiceSpec>, services: seq<ServiceState>)
    requires forall j, k :: 0 <= j < k < |specs| ==> specs[j].port != specs[k].port
    requires multiset(PortsOf(services)) == multiset(PortsOfSpecs(specs))
    ensures |Joined(specs, services)| == |specs|
    ensures forall i :: 0 <= i < |specs| ==> RunsOnce(specs[i], Joined(specs, services))
  {
    JoinedAll(specs, services);
    var joined := Joined(specs, services);
    assert |services| == |specs| by {
      assert |multiset(PortsOf(services))| == |multiset(PortsOfSpecs(specs))|;
    }
    forall i | 0 <= i < |specs|
      ensures RunsOnce(specs[i], joined)
    {
      var p := specs[i].port;
      OnceEach(PortsOfSpecs(specs), i);
      assert p in multiset(PortsOf(services));
      var k :| 0 <= k < |services| && PortsOf(services)[k] == p;
      LastSpecWins(specs, i);
      assert joined[k].spec == specs[i];
      forall l | 0 <= l < |specs| && l != k
        ensures joined[l].spec != specs[i]
      {
        if PortsOf(services)[l] == p {
          TwiceCounted(PortsOf(services), k, l);
        }
      }
    }
  }

  lemma {:induction false} JoinedAll(specs: seq<ServiceSpec>, services: seq<ServiceState>)
    requires forall p :: p in multiset(PortsOf(services)) ==> p in PortsOfSpecs(specs)
    ensures |Joined(specs, services)| == |services|
    ensures forall k :: 0 <= k < |services| ==>
              SpecFor(specs, services[k].port) == Some(Joined(specs, services)[k].spec)
              && Joined(specs, services)[k].spec.port == services[k].port
  {
    if services != [] {
      var n := |services| - 1;
      assert PortsOf(services) == PortsOf(services[..n]) + [services[n].port];
      JoinedAll(specs, services[..n]);
      assert services[n].port in multiset(PortsOf(services));
      SpecForFound(specs, services[n].port);
    }
  }

  lemma TwiceCounted(s: seq<int>, i: nat, j: nat)
    requires i < |s| && j < |s| && i != j && s[i] == s[j]
    ensures multiset(s)[s[i]] >= 2
  {
    var a, b := if i < j then i else j, if i < j then j else i;
    assert s == s[..a] + [s[a]] + s[a + 1..b] + [s[b]] + s[b + 1..];
  }

  lemma {:induction false} OnceEach(s: seq<int>, i: nat)
    requires i < |s| && forall j, k :: 0 <= j < k < |s| ==> s[j] != s[k]
    ensures multiset(s)[s[i]] == 1
  {
    assert s == s[..i] + [s[i]] + s[i + 1..];
    assert s[i] !in s[..i] && s[i] !in s[i + 1..];
  }
}
