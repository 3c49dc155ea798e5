/** cmd/agent/main.go: start-up, registration with retries, the save after a
    speed test and the reaction to a revocation. Every method moves the
    protocol of module Protocol along: a host's log is a run of it, so what
    holds of all runs holds of this code. */
module Agent {
  import opened Basics
  import opened Config
  import opened Services
  import opened Register
  import opened StateStore
  import opened Protocol

  // ---------- retrying ----------

  /** What becomes of one registration attempt: the gateway accepts it and the
      response arrives, or the response is lost, or the request is; or an error
      is answered, by the gateway itself or by a proxy whose answer may follow
      an acceptance. */
  datatype Outcome =
    | Answered(response: Response)
    | ResponseLost(response: Response)
    | Unreachable
    | Refused(error: APIError, accepted: Option<Response>)

  /** An outcome that ends the retries. */
  predicate Decisive(o: Outcome) {
    match o
    case Answered(r) => Complete(r)
    case Refused(e, _) => e.Fatal() || !e.Retryable()
    case _ => false
  }

  /** The first decisive outcome; |os| when there is none. */
  function FirstDecisive(os: seq<Outcome>): (d: nat)
    ensures d <= |os|
    ensures forall i :: 0 <= i < d ==> !Decisive(os[i])
    ensures d < |os| ==> Decisive(os[d])
  {
    if os == [] then 0 else if Decisive(os[0]) then 0 else 1 + FirstDecisive(os[1..])
  }

  lemma FirstDecisiveIs(os: seq<Outcome>, d: nat)
    requires d <= |os| && (d < |os| ==> Decisive(os[d]))
    requires forall i :: 0 <= i < d ==> !Decisive(os[i])
    ensures FirstDecisive(os) == d
  {
  }

  const MINUTE := 60

  /** The k-th wait, in seconds. */
  function RetryWait(k: nat): nat { Min(Pow2(k + 1), MINUTE) }

  function TotalRetryWait(n: nat): nat {
    if n == 0 then 0 else TotalRetryWait(n - 1) + RetryWait(n - 1)
  }

  /** Waiting in total: doubling up to 32 seconds, then a minute each. */
  lemma {:induction false} TotalRetryWaitIs(n: nat)
    ensures TotalRetryWait(n) == if n <= 5 then Pow2(n + 1) - 2 else 62 + 60 * (n - 5)
  {
    if n > 0 {
      TotalRetryWaitIs(n - 1);
      assert Pow2(6) == 64 by { assert Pow2(3) == 8; }
      if n <= 5 {
        Pow2Grows(n, 5);
      } else {
        Pow2Grows(6, n);
      }
    }
  }

  datatype Registered =
    | Granted(response: Response)
    | Rejected(error: APIError)
    | Cancelled

  /** What the retry loop returns when it stops at this outcome. */
  function Verdict(o: Outcome): Registered
    requires Decisive(o)
  {
    match o
    case Answered(r) => Granted(Validate(r).value)
    case Refused(e, _) => Rejected(e)
  }

  /** Which outcomes the loop goes on after, and what it stops with: lost
      answers, incomplete ones, and errors of the server or its pacing are
      retried; a complete answer is granted; a rejected credential or any other
      status is final. */
  lemma RetriesUntil(os: seq<Outcome>, i: nat)
    requires i <= |os|
    requires forall k :: 0 <= k < i ==>
               match os[k]
               case ResponseLost(_) => true
               case Unreachable => true
               case Answered(resp) =>
                 resp.agentID == "" || resp.agentSecret == "" || resp.wireGuard.address == ""
                 || resp.wireGuard.peer.publicKey == "" || resp.wireGuard.peer.endpoint == ""
                 || resp.wireGuard.peer.allowedIPs == []
               case Refused(e, _) => e.code !in {"invalid_token", "invalid_agent"} && (e.status >= 500 || e.status == 429)
    ensures i == |os| ==> FirstDecisive(os) == |os|
    ensures i < |os| && os[i].Refused?
            && (os[i].error.code in {"invalid_token", "invalid_agent"} || (os[i].error.status < 500 && os[i].error.status != 429)) ==>
              FirstDecisive(os) == i && Verdict(os[i]) == Rejected(os[i].error)
    ensures i < |os| && os[i].Answered?
            && (var resp := os[i].response;
                && resp.agentID != "" && resp.agentSecret != "" && resp.wireGuard.address != ""
                && resp.wireGuard.peer.publicKey != "" && resp.wireGuard.peer.endpoint != ""
                && resp.wireGuard.peer.allowedIPs != []) ==>
              FirstDecisive(os) == i && Verdict(os[i]).Granted? && Some(Verdict(os[i]).response) == Validate(os[i].response)
  {
    assert forall k :: 0 <= k < i ==> !Decisive(os[k]);
    if i == |os| || Decisive(os[i]) {
      FirstDecisiveIs(os, i);
    }
    hide Validate, FirstDecisive;
  }

  /** The response issued along with this outcome, received or not. */
  function Issues(o: Outcome): Option<Response> {
    match o
    case Answered(r) => if r.agentSecret == "" then None else Some(r)
    case ResponseLost(r) => Some(r)
    case Unreachable => None
    case Refused(_, accepted) => accepted
  }

  /** The gateway must have issued this response just now. An incomplete answer
      may come from anywhere, and any number of times. */
  predicate IsNew(o: Outcome) { Issues(o).Some? && (o.Answered? ==> Complete(o.response)) }

  /** The gateway issues every secret once. */
  ghost predicate Fresh(os: seq<Outcome>, g: Gateway) {
    && (forall i :: 0 <= i < |os| && IsNew(os[i]) ==> Issues(os[i]).value.agentSecret !in g.grants)
    && (forall i, j :: 0 <= i < j < |os| && Issues(os[i]).Some? && IsNew(os[j]) ==>
          Issues(os[i]).value.agentSecret != Issues(os[j]).value.agentSecret)
  }

  datatype StartError = NotRegistered | UnusableKey | RegistrationFailed(why: Registered) | SaveDidNotComplete
                      | CannotLoad(error: LoadError) | NoServicesResolved

  datatype Started = Started(state: State, services: seq<RunService>)

  class Host {
    const dir: StateDir
    ghost const origin: System
    ghost var system: System
    ghost var log: seq<Label>

    /** The log is a run of the protocol that leads to the current system. */
    ghost predicate Valid() reads this, dir {
      && Run(origin, log) == Some(system)
      && system.disk == dir.Contents()
    }

    constructor (dir: StateDir, ghost system: System)
      requires system.disk == dir.Contents()
      ensures Valid() && this.dir == dir && this.system == system && log == []
    {
      this.dir := dir;
      this.origin, this.system, this.log := system, system, [];
    }

    /** The protocol takes a step; the directory is brought in line by the
        caller. */
    ghost method Step(l: Label)
      requires Run(origin, log) == Some(system) && Next(system, l).Some?
      modifies this
      ensures Run(origin, log) == Some(system)
      ensures system == Next(old(system), l).value && log == old(log) + [l]
    {
      RunThenStep(origin, log, l);
      system, log := Next(system, l).value, log + [l];
    }

    /** One attempt: POST the registration and read the answer. None stands for
        an error that is not an API error. */
    method PostRegistration(o: Outcome) returns (r: Result<Response, Option<APIError>>)
      requires Valid() && system.process.Registering?
      requires IsNew(o) ==> Issues(o).value.agentSecret !in system.gateway.grants
      modifies this
      ensures Valid() && system.disk == old(system.disk)
      ensures IsNew(o) ==>
                && system.gateway.active == Some(Issues(o).value.agentSecret)
                && system.gateway.peer == Some(PublicOf(old(system.process.key)))
      ensures system.process == (
                if r.Success? then Committing(BuildState(r.value, old(system.process.key)), 0)
                else old(system.process).(attempt := Some(old(system.nextID))))
      ensures system.gateway.grants.Keys ==
                old(system.gateway.grants.Keys) + if Issues(o).Some? then {Issues(o).value.agentSecret} else {}
      ensures r == match o
                   case Answered(resp) => if Complete(resp) then Success(Validate(resp).value) else Failure(None)
                   case ResponseLost(_) => Failure(None)
                   case Unreachable => Failure(None)
                   case Refused(e, _) => Failure(Some(e))
    {
      Step(Send);
      ghost var request := Request(old(system.nextID), PublicOf(system.process.key), system.process.ports);
      assert request in system.gateway.wire;
      match o {
        case Unreachable => return Failure(None);
        case Refused(e, accepted) =>
          if accepted.Some? {
            Step(Accept(request, accepted.value));
          }
          return Failure(Some(e));
        case ResponseLost(resp) =>
          Step(Accept(request, resp));
          return Failure(None);
        case Answered(resp) =>
          if resp.agentSecret != "" && resp.agentSecret !in system.gateway.grants {
            Step(Accept(request, resp));
          }
          var valid := Validate(resp);
          if valid.None? {
            return Failure(None);
          }
          Step(Receive(resp));
          return Success(valid.value);
      }
    }

    /** The registration ends without a state. */
    ghost method Quit()
      requires Valid() && system.process.Registering?
      modifies this
      ensures Valid() && system == old(system).(process := Down)
    {
      Step(GiveUp);
    }

    /** The attempts go on until one is decisive or the context ends, which is
        where the outcomes end. */
    method RegisterWithRetry(outcomes: seq<Outcome>) returns (r: Registered, waits: seq<nat>)
      requires Valid() && system.process.Registering? && Fresh(outcomes, system.gateway)
      modifies this
      ensures Valid() && system.disk == old(system.disk)
      ensures FirstDecisive(outcomes) < |outcomes| ==> r == Verdict(outcomes[FirstDecisive(outcomes)])
      ensures FirstDecisive(outcomes) == |outcomes| ==> r == Cancelled
      ensures |waits| == if outcomes == [] then 0 else Min(FirstDecisive(outcomes), |outcomes| - 1)
      ensures forall k :: 0 <= k < |waits| ==> waits[k] == RetryWait(k)
      ensures r.Granted? ==>
                && system.gateway.active == Some(r.response.agentSecret)
                && system.gateway.peer == Some(PublicOf(old(system.process.key)))
      ensures system.process ==
              if r.Granted? then Committing(BuildState(r.response, old(system.process.key)), 0) else Down
    {
      hide Next, Run, Validate, BuildState;
      waits := [];
      var backoff := 2;
      ghost var key := system.process.key;
      assert RetryWait(0) == 2;
      for i := 0 to |outcomes|
        invariant Valid() && system.disk == old(system.disk)
        invariant system.process.Registering? && system.process.key == key
        invariant backoff == RetryWait(i) && |waits| == i
        invariant i > 0 ==> i < |outcomes|
        invariant forall k :: 0 <= k < i ==> waits[k] == RetryWait(k) && !Decisive(outcomes[k])
        invariant forall j :: i <= j < |outcomes| && IsNew(outcomes[j]) ==>
                                Issues(outcomes[j]).value.agentSecret !in system.gateway.grants.Keys
      {
        var resp := PostRegistration(outcomes[i]);
        if resp.Success? {
          FirstDecisiveIs(outcomes, i);
          return Granted(resp.value), waits;
        }
        if resp.error.Some? {
          var e := resp.error.value;
          if e.Fatal() || !e.Retryable() {
            FirstDecisiveIs(outcomes, i);
            Quit();
            return Rejected(e), waits;
          }
        }
        if i + 1 == |outcomes| {
          FirstDecisiveIs(outcomes, |outcomes|);
          Quit();
          return Cancelled, waits;
        }
        waits := waits + [backoff];
        assert RetryWait(i + 1) == Min(RetryWait(i) * 2, MINUTE);
        backoff := Min(backoff * 2, MINUTE);
      }
      Quit();
      return Cancelled, waits;
    }

    /** The protocol takes the effects that Save has had on the directory. */
    ghost method Sync(doc: State, reached: nat)
      requires Run(origin, log) == Some(system)
      requires system.process == Committing(doc, 0) || system.process == Running(doc, Writing(0)) || system.process == Stopping(doc, Writing(0))
      requires reached <= 3 && dir.Contents() == SavedUpTo(system.disk, doc, reached)
      modifies this
      ensures Valid() && system.gateway == old(system.gateway)
      ensures system.process == AfterEffects(old(system.process), reached)
    {
      hide Run;
      for i := 0 to reached
        invariant Run(origin, log) == Some(system)
        invariant system.gateway == old(system.gateway)
        invariant system.disk == SavedUpTo(old(system.disk), doc, i)
        invariant system.process == AfterEffects(old(system.process), i)
      {
        Step(SaveStep);
      }
    }

    /** registerAgent: the state it returns is on disk before it returns. */
    method RegisterAgent(prev: Option<State>, hasToken: bool, specs: seq<ServiceSpec>, generated: Option<string>,
                         outcomes: seq<Outcome>, fault: Option<Fault>)
      returns (r: Result<State, StartError>)
      requires Valid() && system.process.Down? && Fresh(outcomes, system.gateway)
      requires generated.Some? ==> IsKey(generated.value)
      requires Loaded(dir.main) == Success(prev)
      requires prev.Some? ==> hasToken && multiset(PortsOf(prev.value.services)) != multiset(PortsOfSpecs(specs))
      modifies this, dir
      ensures Valid()
      ensures r.Failure? ==> system.process.Down?
      ensures !hasToken || RegistrationKey(prev, generated).None? ==> r.Failure? && system == old(system)
      ensures r.Success? <==>
              hasToken && RegistrationKey(prev, generated).Some? && GrantedIn(outcomes) && Harmless(fault)
      ensures r.Success? ==>
                && r.value == NewState(outcomes, RegistrationKey(prev, generated).value)
                && dir.Contents() == Disk(Some(Whole(r.value)), None)
                && system.process == Running(r.value, Quiet)
                && system.gateway.active == Some(r.value.agentSecret)
                && system.gateway.peer == Some(PublicOf(r.value.privateKey))
      ensures r.Failure? && dir.main != old(dir.main) ==>
                && fault.Some? && fault.value.crash && GrantedIn(outcomes) && RegistrationKey(prev, generated).Some?
                && dir.main == Some(Whole(NewState(outcomes, RegistrationKey(prev, generated).value)))
    {
      var ports := SpecPorts(specs);
      Step(Start(ports, hasToken, generated));
      if !hasToken {
        return Failure(NotRegistered);
      }
      var key := RegistrationKey(prev, generated);
      if key.None? {
        return Failure(UnusableKey);
      }
      assert system.process == Registering(prev, key.value, ports, None);
      hide Decide, Run, Next, Migrate, BuildState, RegistrationKey;
      var reply, waits := RegisterWithRetry(outcomes);
      if !reply.Granted? {
        return Failure(RegistrationFailed(reply));
      }
      var state := BuildState(reply.response, key.value);
      assert GrantedIn(outcomes) && state == NewState(outcomes, key.value);
      var saved, reached := dir.Save(state, fault);
      SavedUpToIs(system.disk, state, reached);
      Sync(state, reached);
      if saved.Saved? {
        return Success(state);
      }
      Die(saved);
      return Failure(SaveDidNotComplete);
    }

    /** The process ends because its save failed or because it crashed. */
    ghost method Die(saved: SaveOutcome)
      requires Valid() && (saved.SaveFailed? ==> system.process.Committing? && system.process.reached < 3)
      modifies this
      ensures Valid() && system == old(system).(process := Down)
    {
      Step(if saved.SaveFailed? then SaveError else Exit);
    }

    /** The switch at the start of run: which state to run with. */
    method ChooseState(readFails: bool, hasToken: bool, specs: seq<ServiceSpec>, generated: Option<string>,
                       outcomes: seq<Outcome>, fault: Option<Fault>)
      returns (r: Result<State, StartError>)
      requires Valid() && system.process.Down? && Fresh(outcomes, system.gateway)
      requires generated.Some? ==> IsKey(generated.value)
      modifies this, dir
      ensures Valid()
      ensures system.process == if r.Success? then Running(r.value, Quiet) else Down
      ensures readFails ==> r.Failure? && system == old(system)
      ensures !readFails && old(dir.main.Some? && dir.main.value.Whole? && dir.main.value.doc.services != []) && !hasToken ==>
                r == Success(old(dir.main.value.doc)) && system.disk == old(system.disk)
      ensures !readFails ==> match Decide(old(dir.main), PortsOfSpecs(specs), hasToken, generated)
              case CannotStart => r.Failure? && system == old(system)
              case UseExisting(st) =>
                r == Success(st) && system.disk == old(system.disk) && system.gateway == old(system.gateway)
              case Register(_, key) =>
                && (r.Success? <==> GrantedIn(outcomes) && Harmless(fault))
                && (r.Success? ==> r.value == NewState(outcomes, key)
                                   && system.disk == Disk(Some(Whole(r.value)), None))
                && (r.Failure? && dir.main != old(dir.main) ==>
                      && fault.Some? && fault.value.crash && GrantedIn(outcomes)
                      && dir.main == Some(Whole(NewState(outcomes, key))))
    {
      DecisionIs(dir.main, PortsOfSpecs(specs), hasToken, generated);
      var loaded := dir.LoadState(readFails);
      var configured := SpecPorts(specs);
      hide Run, Migrate, IsKey;
      if loaded.Failure? {
        return Failure(CannotLoad(loaded.error));
      }
      if loaded.value.None? {
        r := RegisterAgent(None, hasToken, specs, generated, outcomes, fault);
        return r;
      }
      var covered := loaded.value.value.Ports();
      var same := SamePorts(covered, configured);
      if !same && hasToken {
        r := RegisterAgent(loaded.value, hasToken, specs, generated, outcomes, fault);
        return r;
      }
      Step(Start(configured, hasToken, generated));
      return Success(loaded.value.value);
    }

    /** run up to the point where the services start. */
    method StartUp(readFails: bool, hasToken: bool, specs: seq<ServiceSpec>, generated: Option<string>,
                   outcomes: seq<Outcome>, fault: Option<Fault>)
      returns (r: Result<Started, StartError>)
      requires Valid() && system.process.Down? && Fresh(outcomes, system.gateway)
      requires generated.Some? ==> IsKey(generated.value)
      modifies this, dir
      ensures Valid()
      ensures system.process == if r.Success? then Running(r.value.state, Quiet) else Down
      ensures r.Success? ==> r.value.services == Joined(specs, r.value.state.services)
      ensures readFails ==> r.Failure? && system == old(system)
      ensures !readFails && old(dir.main.Some? && dir.main.value.Whole? && dir.main.value.doc.services != []) && !hasToken ==>
                && (r.Success? <==> exists j :: 0 <= j < |old(dir.main.value.doc.services)|
                                                && old(dir.main.value.doc.services)[j].port in PortsOfSpecs(specs))
                && (r.Success? ==> r.value.state == old(dir.main.value.doc)) && system.disk == old(system.disk)
      ensures !readFails ==> match Decide(old(dir.main), PortsOfSpecs(specs), hasToken, generated)
              case CannotStart => r.Failure? && system == old(system)
              case UseExisting(st) =>
                && system.disk == old(system.disk) && system.gateway == old(system.gateway)
                && (r.Success? <==> SharePort(specs, st.services))
                && (r.Success? ==> r.value.state == st)
              case Register(_, key) =>
                && (r.Success? <==> GrantedIn(outcomes) && Harmless(fault)
                                    && SharePort(specs, NewState(outcomes, key).services))
                && (r.Success? ==> r.value.state == NewState(outcomes, key)
                                   && system.disk == Disk(Some(Whole(r.value.state)), None))
                && (r.Failure? && dir.main != old(dir.main) ==>
                      && GrantedIn(outcomes) && dir.main == Some(Whole(NewState(outcomes, key)))
                      && (r.error == NoServicesResolved || (fault.Some? && fault.value.crash)))
    {
      hide Decide, Run, BuildState;
      var state := ChooseState(readFails, hasToken, specs, generated, outcomes, fault);
      if state.Failure? {
        return Failure(state.error);
      }
      var services := BuildServices(specs, state.value.services);
      if services.Failure? {
        Step(Exit);
        return Failure(NoServicesResolved);
      }
      return Success(Started(state.value, services.value));
    }

    /** runSpeedtest up to its report, which the gateway accepts or not; the
        answer is still to come. */
    method ReportSpeedtest(accepted: bool)
      requires Valid() && Alive(system.process) && system.process.test.Quiet?
      requires accepted ==> system.gateway.active == Some(system.process.state.agentSecret)
      modifies this
      ensures Valid() && system == old(system).(
                process := old(system.process).(test := if accepted then Reported else Quiet))
    {
      Step(ReportSent);
      Step(if accepted then ReportAccepted else ReportFailed);
    }

    /** runSpeedtest once the answer to its report is there, the agent running
        or already stopping: the result is saved, and a failed save leaves the
        process as it was. */
    method SaveAfterSpeedtest(state: State, fault: Option<Fault>)
      requires Valid() && Alive(system.process) && system.process.test.Reported? && system.process.state == state
      modifies this, dir
      ensures Valid() && system.gateway == old(system.gateway)
      ensures system.process ==
              if fault.Some? && fault.value.crash then Down
              else old(system.process).(state := Done(state), test := Quiet)
      ensures dir.main == old(dir.main) || dir.main == Some(Whole(Done(state)))
      ensures Harmless(fault) ==> dir.main == Some(Whole(Done(state)))
    {
      ghost var reporting := system.process;
      var doc := Done(state);
      Step(TestReported);
      assert system.process == reporting.(state := doc, test := Writing(0));
      hide Run, Next;
      var saved, reached := dir.Save(doc, fault);
      SavedUpToIs(system.disk, doc, reached);
      Sync(doc, reached);
      EndSave(saved);
    }

    /** A save of a running process that was cut off. */
    ghost method EndSave(saved: SaveOutcome)
      requires Valid() && Alive(system.process)
      requires saved.Saved? ==> system.process.test.Quiet?
      requires saved.SaveFailed? ==> Saving(system.process)
      modifies this
      ensures Valid() && system == old(system).(
                process := if saved.Crashed? then Down else old(system.process).(test := Quiet))
    {
      if saved.SaveFailed? {
        Step(SaveError);
      } else if saved.Crashed? {
        Step(Exit);
      }
    }

    /** The heartbeat was told that the credentials are revoked: the state file
        goes, unless removing it fails. */
    method OnRevoked(removeFails: bool)
      requires Valid() && system.process.Running?
      requires system.gateway.active != Some(system.process.state.agentSecret)
      modifies this, dir
      ensures Valid() && system.process == Stopping(old(system.process.state), old(system.process.test))
      ensures dir.main == if removeFails then old(dir.main) else None
      ensures system.gateway == old(system.gateway)
    {
      var removed := dir.Remove(removeFails);
      Step(RevocationSeen(removed));
    }
  }

  /** Whatever this code has done so far, the directory it leaves behind holds
      no torn state and no credentials of another key. */
  lemma HostIsPaired(h: Host)
    requires h.Valid() && Inv(h.origin)
    ensures Paired(h.system) && h.system.disk == h.dir.Contents()
  {
    CredentialsMatchKey(h.origin, h.log);
  }

  /** After a registration, every later start with the same list runs with the
      state on disk and no registration is ever sent again, over any run of
      crashes, restarts and saves that keeps the state file, exactly when the
      gateway echoed the ports it was asked for; then every configured service
      runs exactly once, after each of those starts. */
  lemma RestartFixedPoint(raw: string, healthPath: string, specs: seq<ServiceSpec>, os: seq<Outcome>, key: string,
                          s: System)
    requires ParsesTo(raw, healthPath, specs) && GrantedIn(os)
    requires Inv(s) && s.process == Running(NewState(os, key), Quiet)
    requires s.disk.main == Some(Whole(NewState(os, key)))
    ensures var st := NewState(os, key);
            var echoed := multiset(PortsOf(st.services)) == multiset(PortsOfSpecs(specs));
            && (echoed <==> forall ls :: Restarts(ls, PortsOfSpecs(specs)) && Run(s, ls).Some? ==>
                                           Run(s, ls).value.gateway.wire == s.gateway.wire)
            && (echoed ==> forall ls :: Restarts(ls, PortsOfSpecs(specs)) && Run(s, ls).Some? ==>
                                          StartsSettled(Run(s, ls).value, st, specs))
  {
    var st := NewState(os, key);
    hide Inv, ParsesTo, GrantedIn;
    assert st.services != [];
    assert Settled(s, st);
    RestartsNeverRegister(s, st, PortsOfSpecs(specs));
    if multiset(PortsOf(st.services)) == multiset(PortsOfSpecs(specs)) {
      forall ls | Restarts(ls, PortsOfSpecs(specs)) && Run(s, ls).Some?
        ensures StartsSettled(Run(s, ls).value, st, specs)
      {
        RunKeepsSettled(s, ls, st);
        DistinctPorts(raw, healthPath, specs);
        hide Settled;
        SettledStarts(Run(s, ls).value, st, specs);
      }
    }
  }

  /** Whatever a start finds here, it uses the registration, with or without a
      token, and runs every configured service exactly once. */
  ghost predicate StartsSettled(s: System, st: State, specs: seq<ServiceSpec>) {
    && s.disk.main.Some? && s.disk.main.value.Whole? && SameUpToTest(Migrate(s.disk.main.value.doc), st)
    && (forall hasToken, generated ::
          Decide(s.disk.main, PortsOfSpecs(specs), hasToken, generated) == UseExisting(Migrate(s.disk.main.value.doc)))
    && |Joined(specs, st.services)| == |specs|
    && forall i :: 0 <= i < |specs| ==> RunsOnce(specs[i], Joined(specs, st.services))
  }

  lemma SettledStarts(s: System, st: State, specs: seq<ServiceSpec>)
    requires Settled(s, st) && multiset(PortsOf(st.services)) == multiset(PortsOfSpecs(specs))
    requires forall j, k :: 0 <= j < k < |specs| ==> specs[j].port != specs[k].port
    ensures StartsSettled(s, st, specs)
  {
    EverySpecRunsOnce(specs, st.services);
    forall hasToken, generated
      ensures Decide(s.disk.main, PortsOfSpecs(specs), hasToken, generated) == UseExisting(Migrate(s.disk.main.value.doc))
    {
      SettledDecides(s, st, PortsOfSpecs(specs), hasToken, generated);
    }
    hide Decide, Joined, RunsOnce;
  }

  lemma DistinctPorts(raw: string, healthPath: string, specs: seq<ServiceSpec>)
    requires ParsesTo(raw, healthPath, specs)
    ensures forall j, k :: 0 <= j < k < |specs| ==> specs[j].port != specs[k].port
  {
    var es := Entries(raw);
    hide Entries, EntryOk, HostAt;
    assert forall i :: 0 <= i < |specs| ==> specs[i].port == PortAt(es, i);
    hide SpecAt, PortAt;
  }

  function Done(st: State): State { st.(speedtestDone := true) }

  /** Some registered service has a configured port. */
  predicate SharePort(specs: seq<ServiceSpec>, services: seq<ServiceState>) {
    exists i :: 0 <= i < |services| && services[i].port in PortsOfSpecs(specs)
  }

  /** The first decisive outcome is a complete response. */
  predicate GrantedIn(os: seq<Outcome>) {
    FirstDecisive(os) < |os| && os[FirstDecisive(os)].Answered?
  }

  /** What is stored of the granted response, field by field. */
  lemma NewStateIs(os: seq<Outcome>, key: string)
    requires GrantedIn(os)
    ensures var resp, st := os[FirstDecisive(os)].response, NewState(os, key);
            && st.agentID == resp.agentID && st.agentSecret == resp.agentSecret && st.subdomain == resp.subdomain
            && st.privateKey == key && st.servicePort == resp.servicePort
            && st.speedtest == resp.speedtest && !st.speedtestDone
            && st.heartbeatInterval == (if resp.heartbeatInterval > 0 then resp.heartbeatInterval else 60)
            && st.wireGuard.address == resp.wireGuard.address && st.wireGuard.peer == resp.wireGuard.peer
            && st.wireGuard.mtu == (if resp.wireGuard.mtu > 0 then resp.wireGuard.mtu else 1280)
            && |st.services| == (if resp.services == [] then 1 else |resp.services|)
            && (resp.services == [] ==>
                  && st.services[0].name == st.services[0].subdomain == resp.subdomain
                  && st.services[0].port == resp.servicePort)
            && forall i :: 0 <= i < |resp.services| ==>
                 && st.services[i].name == resp.services[i].name
                 && st.services[i].subdomain == resp.services[i].subdomain
                 && st.services[i].port == resp.services[i].servicePort
  {
  }

  function NewState(os: seq<Outcome>, key: string): State
    requires GrantedIn(os)
  {
    BuildState(Verdict(os[FirstDecisive(os)]).response, key)
  }
}
