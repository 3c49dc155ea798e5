/** Registration and persistence as a protocol between the state directory, one
    agent process at a time, and the seat it holds at the gateway.

    Processes crash between any two steps, requests and responses are lost,
    delayed or delivered more than once, registrations are retried and repeated
    for a changed service set, speed tests save, and seats are revoked. */
module Protocol {
  import opened Basics
  import opened Register
  import opened StateStore

  /** One attempt at POST /v1/agents/register on the wire. */
  datatype Request = Request(id: nat, publicKey: PublicKey, ports: seq<int>)
  datatype Grant = Grant(request: Request, response: Response)

  /** The gateway's half (docs/API.md): every registration issues a new agent
      secret, which becomes the seat's one active secret, and its public key
      becomes the seat's one peer. `grants` records what was issued for which
      request; `wire` holds every request ever sent, any of which may still
      arrive. */
  datatype Gateway = Gateway(
    wire: set<Request>, grants: map<string, Grant>, active: Option<string>, peer: Option<PublicKey>)

  /** A speed test, from its report on: under way to the gateway, accepted
      there but not answered here, answered and being saved. */
  datatype Test = Quiet | Reporting | Reported | Writing(reached: nat)

  datatype Process =
    | Down
    | Registering(prev: Option<State>, key: string, ports: seq<int>, attempt: Option<nat>)
    | Committing(state: State, reached: nat)
    | Running(state: State, test: Test)
    | Stopping(state: State, test: Test)

  datatype System = System(disk: Disk, process: Process, gateway: Gateway, nextID: nat)

  // ---------- the start-up decision ----------

  /** registrationKey: an existing key is reused, else the generated one is
      taken; None when the stored text is no key or generation failed. */
  function RegistrationKey(prev: Option<State>, generated: Option<string>): Option<string> {
    if prev.Some? && prev.value.privateKey != "" then
      if IsKey(prev.value.privateKey) then Some(prev.value.privateKey) else None
    else generated
  }

  datatype Decision = CannotStart | Register(prev: Option<State>, key: string) | UseExisting(state: State)

  /** What run decides from the state file, the configured ports and the
      presence of a token. */
  function Decide(main: Option<File>, ports: seq<int>, hasToken: bool, generated: Option<string>): Decision {
    match Loaded(main)
    case Failure(_) => CannotStart
    case Success(found) =>
      if found.Some? && (multiset(PortsOf(found.value.services)) == multiset(ports) || !hasToken) then
        UseExisting(found.value)
      else if !hasToken then CannotStart
      else
        match RegistrationKey(found, generated)
        case None => CannotStart
        case Some(key) => Register(found, key)
  }

  /** The decision, case by case. A missing file needs a token and a generated
      key; a torn one stops the start; with a state that needs no migration, no token
      or the same ports mean keeping it, and otherwise it is registered again
      with its own key, if it has one and it is a key. */
  lemma DecisionIs(main: Option<File>, ports: seq<int>, hasToken: bool, generated: Option<string>)
    ensures var d := Decide(main, ports, hasToken, generated);
            && (main.None? ==>
                  d == if hasToken && generated.Some? then Register(None, generated.value) else CannotStart)
            && (main == Some(Torn) ==> d == CannotStart)
            && (main.Some? && main.value.Whole? && (main.value.doc.services != [] || main.value.doc.subdomain == "") ==>
                  var doc := main.value.doc;
                  var covered := seq(|doc.services|, i requires 0 <= i < |doc.services| => doc.services[i].port);
                  && (!hasToken ==> d == UseExisting(doc))
                  && (multiset(covered) == multiset(ports) ==> d == UseExisting(doc))
                  && (hasToken && multiset(covered) != multiset(ports) ==>
                        && (doc.privateKey == "" ==>
                              d == if generated.Some? then Register(Some(doc), generated.value) else CannotStart)
                        && (doc.privateKey != "" ==>
                              d == if IsKey(doc.privateKey) then Register(Some(doc), doc.privateKey) else CannotStart)))
  {
    if main.Some? && main.value.Whole? {
      var doc := main.value.doc;
      assert PortsOf(doc.services) == seq(|doc.services|, i requires 0 <= i < |doc.services| => doc.services[i].port);
    }
    hide IsKey;
  }

  /** A state file from before there was a services list decides as one that
      lists its one service. */
  lemma LegacyDecisionIs(doc: State, ports: seq<int>, hasToken: bool, generated: Option<string>)
    requires doc.services == [] && doc.subdomain != ""
    ensures var port := if doc.servicePort == 0 then 8096 else doc.servicePort;
            var listed := doc.(services := [ServiceState(doc.subdomain, doc.subdomain, port)]);
            Decide(Some(Whole(doc)), ports, hasToken, generated) == Decide(Some(Whole(listed)), ports, hasToken, generated)
  {
    hide IsKey;
  }

  // ---------- steps ----------

  datatype Label =
    | Start(ports: seq<int>, hasToken: bool, generated: Option<string>)
    | Send
    | Accept(request: Request, response: Response)
    | Receive(response: Response)
    | GiveUp
    | SaveStep
    | SaveError
    | ReportSent
    | ReportAccepted
    | ReportFailed
    | TestReported
    | Revoke
    | RevocationSeen(removed: bool)
    | Exit

  predicate Alive(p: Process) { p.Running? || p.Stopping? }

  predicate Saving(p: Process) {
    || (p.Committing? && p.reached < 3)
    || (Alive(p) && p.test.Writing? && p.test.reached < 3)
  }

  function Reached(p: Process): nat
    requires Saving(p)
  {
    if p.Committing? then p.reached else p.test.reached
  }

  /** A process that saves, after n effects of its save. */
  function AfterEffects(p: Process, n: nat): Process
    requires p.Committing? || Alive(p)
  {
    if p.Committing? then if n == 3 then Running(p.state, Quiet) else Committing(p.state, n)
    else p.(test := if n == 3 then Quiet else Writing(n))
  }

  /** The system after a step; None when the step is not possible. */
  function Next(s: System, l: Label): Option<System> {
    match l
    case Start(ports, hasToken, generated) =>
      if !s.process.Down? || (generated.Some? && !IsKey(generated.value)) then None
      else (
        match Decide(s.disk.main, ports, hasToken, generated)
        case CannotStart => Some(s)
        case Register(prev, key) => Some(s.(process := Registering(prev, key, ports, None)))
        case UseExisting(st) => Some(s.(process := Running(st, Quiet)))
      )
    case Send =>
      if !s.process.Registering? then None
      else
        var request := Request(s.nextID, PublicOf(s.process.key), s.process.ports);
        Some(s.(process := s.process.(attempt := Some(s.nextID)), nextID := s.nextID + 1,
                gateway := s.gateway.(wire := s.gateway.wire + {request})))
    case Accept(request, response) =>
      if request !in s.gateway.wire || response.agentSecret in s.gateway.grants then None
      else
        var secret := response.agentSecret;
        Some(s.(gateway := Gateway(s.gateway.wire, s.gateway.grants[secret := Grant(request, response)],
                                   Some(secret), Some(request.publicKey))))
    case Receive(response) =>
      if !s.process.Registering? || s.process.attempt.None? || response.agentSecret !in s.gateway.grants then None
      else
        var grant := s.gateway.grants[response.agentSecret];
        var valid := Validate(response);
        if grant.request.id != s.process.attempt.value || grant.response != response || valid.None? then None
        else Some(s.(process := Committing(BuildState(valid.value, s.process.key), 0)))
    case GiveUp =>
      if s.process.Registering? then Some(s.(process := Down)) else None
    case SaveStep =>
      if !Saving(s.process) then None
      else Some(s.(disk := Do(s.disk, SaveOps(s.process.state)[Reached(s.process)]),
                   process := AfterEffects(s.process, Reached(s.process) + 1)))
    case SaveError =>
      if !Saving(s.process) then None
      else Some(s.(process := if s.process.Committing? then Down else s.process.(test := Quiet)))
    case ReportSent =>
      if Alive(s.process) && s.process.test.Quiet?
      then Some(s.(process := s.process.(test := Reporting))) else None
    case ReportAccepted =>
      if Alive(s.process) && s.process.test.Reporting? && s.gateway.active == Some(s.process.state.agentSecret)
      then Some(s.(process := s.process.(test := Reported))) else None
    case ReportFailed =>
      if Alive(s.process) && (s.process.test.Reporting? || s.process.test.Reported?)
      then Some(s.(process := s.process.(test := Quiet))) else None
    case TestReported =>
      if Alive(s.process) && s.process.test.Reported?
      then Some(s.(process := s.process.(state := s.process.state.(speedtestDone := true), test := Writing(0))))
      else None
    case Revoke => Some(s.(gateway := s.gateway.(active := None, peer := None)))
    case RevocationSeen(removed) =>
      if s.process.Running? && s.gateway.active != Some(s.process.state.agentSecret)
      then Some(s.(process := Stopping(s.process.state, s.process.test),
                   disk := if removed then s.disk.(main := None) else s.disk))
      else None
    case Exit => Some(s.(process := Down))
  }

  function Run(s: System, ls: seq<Label>): Option<System>
    decreases |ls|
  {
    if ls == [] then Some(s)
    else
      match Next(s, ls[0])
      case None => None
      case Some(t) => Run(t, ls[1..])
  }

  lemma {:induction false} RunThenStep(s: System, ls: seq<Label>, l: Label)
    requires Run(s, ls).Some?
    ensures Run(s, ls + [l]) == Next(Run(s, ls).value, l)
    decreases |ls|
  {
    if ls == [] {
      assert [l][1..] == [];
    } else {
      RunThenStep(Next(s, ls[0]).value, ls[1..], l);
      assert (ls + [l])[1..] == ls[1..] + [l];
    }
  }

  const INITIAL := System(Disk(None, None), Down, Gateway({}, map[], None, None), 0)

  /** What the gateway promises: a registration it accepts takes the seat over,
      its secret the one active one and its key the one peer. */
  lemma RegistrationTakesOver(s: System, request: Request, response: Response)
    requires Next(s, Accept(request, response)).Some?
    ensures var g := Next(s, Accept(request, response)).value.gateway;
            && g.active == Some(response.agentSecret) && g.peer == Some(request.publicKey)
            && (forall st: State :: Issued(s.gateway, st) ==> g.active != Some(st.agentSecret))
  {
    hide IsKey, Validate, BuildState;
  }

  // ---------- the invariant ----------

  /** The state stems as a whole from one grant, whose request carried the
      public half of the state's own key. A state file written before there
      was a services list has none, and its migration has one entry. */
  predicate Issued(g: Gateway, st: State) {
    && st.agentSecret in g.grants && IsKey(st.privateKey)
    && var grant := g.grants[st.agentSecret];
       && grant.request.publicKey == PublicOf(st.privateKey)
       && Validate(grant.response).Some?
       && var built := BuildState(Validate(grant.response).value, st.privateKey);
          && st.(speedtestDone := false, services := []) == built.(services := [])
          && (st.services == built.services
              || (grant.response.services == []
                  && (st.services == [] || st == Migrate(st.(services := [])))))
  }

  predicate GatewayOk(g: Gateway, nextID: nat) {
    && (forall r :: r in g.wire ==> r.id < nextID)
    && (forall q, r :: q in g.wire && r in g.wire && q.id == r.id ==> q == r)
    && (forall x :: x in g.grants ==> g.grants[x].response.agentSecret == x && g.grants[x].request in g.wire)
    && (g.active.Some? ==>
          g.active.value in g.grants && g.peer == Some(g.grants[g.active.value].request.publicKey))
  }

  function KeyOnDisk(d: Disk): Option<string> {
    if d.main.Some? && d.main.value.Whole? then Some(d.main.value.doc.privateKey) else None
  }

  /** The state file, when there is one, carries this key. */
  predicate DiskAgrees(d: Disk, key: string) { KeyOnDisk(d) in {None, Some(key)} }

  predicate SaveOk(d: Disk, st: State, reached: nat) {
    reached < 3 && (reached == 2 ==> d.tmp == Some(Whole(st)))
  }

  predicate ProcessOk(s: System) {
    match s.process
    case Down => true
    case Registering(prev, key, ports, attempt) =>
      && IsKey(key)
      && (prev.None? <==> s.disk.main.None?)
      && (prev.Some? ==>
            && prev.value.privateKey == key
            && s.disk.main.value.Whole? && Migrate(s.disk.main.value.doc) == prev.value)
      && (attempt.Some? ==> Request(attempt.value, PublicOf(key), ports) in s.gateway.wire)
    case Committing(st, n) =>
      Issued(s.gateway, st) && DiskAgrees(s.disk, st.privateKey) && SaveOk(s.disk, st, n)
    case Running(st, test) =>
      Issued(s.gateway, st) && DiskAgrees(s.disk, st.privateKey) && (test.Writing? ==> SaveOk(s.disk, st, test.reached))
    case Stopping(st, test) =>
      && Issued(s.gateway, st) && DiskAgrees(s.disk, st.privateKey) && (test.Writing? ==> SaveOk(s.disk, st, test.reached))
      && s.gateway.active != Some(st.agentSecret)
  }

  predicate Inv(s: System) {
    && s.disk.main != Some(Torn)
    && (s.disk.main.Some? ==> Issued(s.gateway, s.disk.main.value.doc))
    && GatewayOk(s.gateway, s.nextID)
    && ProcessOk(s)
  }

  lemma IssuedSurvives(s: System, l: Label, st: State)
    requires Next(s, l).Some? && Issued(s.gateway, st)
    ensures Issued(Next(s, l).value.gateway, st)
  {
    hide IsKey, Validate, BuildState, Decide;
  }

  lemma IssuedIsMigrated(g: Gateway, st: State)
    requires Issued(g, st)
    ensures Issued(g, Migrate(st)) && Migrate(st).privateKey == st.privateKey != ""
  {
  }

  /** The response to the current attempt answers the process's own key. */
  lemma ReceivedIsIssued(s: System, response: Response)
    requires Inv(s) && Next(s, Receive(response)).Some?
    ensures var st := Next(s, Receive(response)).value.process.state;
            Issued(s.gateway, st) && st.privateKey == s.process.key
  {
    hide IsKey, StatesOf;
    var r := s.gateway.grants[response.agentSecret].request;
    assert r == Request(s.process.attempt.value, PublicOf(s.process.key), s.process.ports);
  }

  lemma StepKeepsGateway(s: System, l: Label)
    requires Inv(s) && Next(s, l).Some?
    ensures GatewayOk(Next(s, l).value.gateway, Next(s, l).value.nextID)
  {
    hide Issued, Decide, Validate, BuildState, ProcessOk;
  }

  lemma StepKeepsDisk(s: System, l: Label)
    requires Inv(s) && Next(s, l).Some?
    ensures var d := Next(s, l).value.disk;
            d == s.disk || d.main == s.disk.main || (l.RevocationSeen? && d.main.None?)
            || (l.SaveStep? && d.main == Some(Whole(s.process.state)))
  {
    hide Issued, Decide, Validate, BuildState, GatewayOk;
  }

  lemma StartKeepsProcess(s: System, l: Label)
    requires Inv(s) && l.Start? && Next(s, l).Some?
    ensures ProcessOk(Next(s, l).value)
  {
    if s.disk.main.Some? {
      IssuedIsMigrated(s.gateway, s.disk.main.value.doc);
    }
    hide IsKey, Issued, GatewayOk, Migrate;
  }

  /** The steps that change nothing but the gateway. */
  lemma GatewayStepKeepsProcess(s: System, l: Label)
    requires Inv(s) && (l.Accept? || l.Revoke?) && Next(s, l).Some?
    requires forall st :: Issued(s.gateway, st) ==> Issued(Next(s, l).value.gateway, st)
    ensures ProcessOk(Next(s, l).value)
  {
    hide IsKey, Validate, BuildState, GatewayOk, Migrate, Decide;
  }

  lemma RegistrationStepKeepsProcess(s: System, l: Label)
    requires Inv(s) && (l.Send? || l.Receive? || l.GiveUp? || l.Exit?) && Next(s, l).Some?
    ensures ProcessOk(Next(s, l).value)
  {
    if l.Receive? {
      ReceivedIsIssued(s, l.response);
    }
    hide IsKey, Validate, BuildState, Issued, GatewayOk, Migrate, Decide;
  }

  lemma SaveKeepsProcess(s: System, l: Label)
    requires Inv(s) && (l.SaveStep? || l.SaveError?) && Next(s, l).Some?
    ensures ProcessOk(Next(s, l).value)
  {
    hide IsKey, Validate, BuildState, Issued, GatewayOk, Migrate, Decide;
  }

  lemma DoneIsIssued(g: Gateway, st: State)
    requires Issued(g, st)
    ensures Issued(g, st.(speedtestDone := true))
  {
    hide IsKey, Validate, BuildState;
  }

  lemma ReportKeepsProcess(s: System, l: Label)
    requires Inv(s) && Next(s, l).Some? && (l.ReportSent? || l.ReportAccepted? || l.ReportFailed?)
    ensures ProcessOk(Next(s, l).value)
  {
    hide IsKey, Validate, BuildState, Issued, GatewayOk, Migrate, Decide;
  }

  lemma TestKeepsProcess(s: System, l: Label)
    requires Inv(s) && Next(s, l).Some? && l.TestReported?
    ensures ProcessOk(Next(s, l).value)
  {
    hide IsKey, Validate, BuildState, Issued, GatewayOk, Migrate, Decide;
    DoneIsIssued(s.gateway, s.process.state);
  }

  lemma RevocationKeepsProcess(s: System, l: Label)
    requires Inv(s) && l.RevocationSeen? && Next(s, l).Some?
    ensures ProcessOk(Next(s, l).value)
  {
    hide IsKey, Validate, BuildState, Issued, GatewayOk, Migrate, Decide;
  }

  lemma StepKeepsProcess(s: System, l: Label)
    requires Inv(s) && Next(s, l).Some?
    requires forall st :: Issued(s.gateway, st) ==> Issued(Next(s, l).value.gateway, st)
    ensures ProcessOk(Next(s, l).value)
  {
    hide Next, Inv, ProcessOk, Issued;
    match l {
      case Start(_, _, _) => StartKeepsProcess(s, l);
      case Accept(_, _) => GatewayStepKeepsProcess(s, l);
      case Revoke => GatewayStepKeepsProcess(s, l);
      case SaveStep => SaveKeepsProcess(s, l);
      case SaveError => SaveKeepsProcess(s, l);
      case RevocationSeen(_) => RevocationKeepsProcess(s, l);
      case Send => RegistrationStepKeepsProcess(s, l);
      case Receive(_) => RegistrationStepKeepsProcess(s, l);
      case GiveUp => RegistrationStepKeepsProcess(s, l);
      case Exit => RegistrationStepKeepsProcess(s, l);
      case TestReported => TestKeepsProcess(s, l);
      case _ => ReportKeepsProcess(s, l);
    }
  }

  lemma StepKeepsInv(s: System, l: Label)
    requires Inv(s) && Next(s, l).Some?
    ensures Inv(Next(s, l).value)
  {
    forall st | Issued(s.gateway, st)
      ensures Issued(Next(s, l).value.gateway, st)
    {
      IssuedSurvives(s, l, st);
    }
    StepKeepsGateway(s, l);
    StepKeepsDisk(s, l);
    StepKeepsProcess(s, l);
    if l.SaveStep? {
      SavedIsIssued(s);
    }
    hide Next, Issued, GatewayOk, ProcessOk;
  }

  lemma SavedIsIssued(s: System)
    requires Inv(s) && Saving(s.process)
    ensures Issued(s.gateway, s.process.state)
  {
    hide Issued, GatewayOk;
  }

  /** Every reachable state of disk, process and gateway is consistent. */
  lemma {:induction false} RunKeepsInv(s: System, ls: seq<Label>)
    requires Inv(s) && Run(s, ls).Some?
    ensures Inv(Run(s, ls).value)
    decreases |ls|
  {
    if ls != [] {
      StepKeepsInv(s, ls[0]);
      RunKeepsInv(Next(s, ls[0]).value, ls[1..]);
    }
  }

  // ---------- credentials and keys never mix ----------

  /** The state file loads, all its fields come from one registration made with
      its own key, and if its secret is the seat's active one then the
      gateway's peer is that key. */
  predicate Paired(s: System) {
    && Loaded(s.disk.main).Success?
    && (s.disk.main.Some? && s.disk.main.value.Whole? ==>
          var st := s.disk.main.value.doc;
          && Issued(s.gateway, st)
          && (s.gateway.active == Some(st.agentSecret) ==> s.gateway.peer == Some(PublicOf(st.privateKey))))
  }

  /** Credentials and keys never mix: over any interleaving of starts, lost and
      delayed messages, retries, crashes, saves and revocations, from any
      consistent beginning. */
  lemma CredentialsMatchKey(s: System, ls: seq<Label>)
    requires Inv(s) && Run(s, ls).Some?
    ensures Paired(Run(s, ls).value)
  {
    RunKeepsInv(s, ls);
    hide Issued, Run, ProcessOk;
  }

  /** A host upgraded from before there was a services list: its state file
      has none, and its gateway knows the registration. */
  function Upgraded(grant: Grant, key: string, done: bool): System
    requires Complete(grant.response)
  {
    var st := BuildState(Validate(grant.response).value, key).(services := [], speedtestDone := done);
    System(Disk(Some(Whole(st)), None), Down,
           Gateway({grant.request}, map[st.agentSecret := grant], Some(st.agentSecret), Some(grant.request.publicKey)),
           grant.request.id + 1)
  }

  /** Two consistent beginnings: a new host, and an upgraded one. */
  lemma Beginnings(grant: Grant, key: string, done: bool)
    requires Complete(grant.response) && grant.response.services == []
    requires IsKey(key) && grant.request.publicKey == PublicOf(key)
    ensures Inv(INITIAL) && Inv(Upgraded(grant, key, done))
  {
    hide IsKey;
  }

  // ---------- the identity of a host ----------

  /** Some start along the run found no state file. */
  predicate FreshStart(s: System, ls: seq<Label>)
    decreases |ls|
  {
    && ls != []
    && ((ls[0].Start? && s.disk.main.None?) || (Next(s, ls[0]).Some? && FreshStart(Next(s, ls[0]).value, ls[1..])))
  }

  /** The key the host goes by: the process's, or else the state file's. */
  function Identity(s: System): Option<string> {
    match s.process
    case Registering(_, key, _, _) => Some(key)
    case Down => KeyOnDisk(s.disk)
    case _ => Some(s.process.state.privateKey)
  }

  lemma IdentityOnDisk(s: System)
    requires Inv(s) && KeyOnDisk(s.disk).Some?
    ensures Identity(s) == KeyOnDisk(s.disk)
  {
    if s.disk.main.Some? {
      IssuedIsMigrated(s.gateway, s.disk.main.value.doc);
    }
    hide Issued, GatewayOk, IsKey, Migrate;
  }

  lemma StartKeepsIdentity(s: System, l: Label)
    requires Inv(s) && Next(s, l).Some? && l.Start? && s.disk.main.Some?
    ensures Identity(Next(s, l).value) == Identity(s)
  {
    IssuedIsMigrated(s.gateway, s.disk.main.value.doc);
    hide IsKey, Issued, GatewayOk, Migrate;
  }

  lemma ReceiveKeepsIdentity(s: System, l: Label)
    requires Inv(s) && Next(s, l).Some? && l.Receive?
    ensures Identity(Next(s, l).value) == Identity(s)
  {
    ReceivedIsIssued(s, l.response);
    hide IsKey, Issued, GatewayOk, Validate, BuildState;
  }

  lemma SaveKeepsIdentity(s: System, l: Label)
    requires Inv(s) && Next(s, l).Some? && (l.SaveStep? || l.SaveError? || l.RevocationSeen?)
    ensures var t := Next(s, l).value; Identity(t) == Identity(s) || (Identity(t) == None && t.disk.main.None?)
  {
    hide IsKey, Issued, GatewayOk;
  }

  lemma QuitKeepsIdentity(s: System, l: Label)
    requires Inv(s) && Next(s, l).Some? && (l.Exit? || l.GiveUp?)
    ensures var t := Next(s, l).value; Identity(t) == Identity(s) || (Identity(t) == None && t.disk.main.None?)
  {
    hide IsKey, Issued, GatewayOk;
  }

  lemma StepKeepsIdentity(s: System, l: Label)
    requires Inv(s) && Next(s, l).Some? && !(l.Start? && s.disk.main.None?)
    ensures var t := Next(s, l).value; Identity(t) == Identity(s) || (Identity(t) == None && t.disk.main.None?)
  {
    if l.Start? {
      StartKeepsIdentity(s, l);
    } else if l.Receive? {
      ReceiveKeepsIdentity(s, l);
    } else if l.SaveStep? || l.SaveError? || l.RevocationSeen? {
      SaveKeepsIdentity(s, l);
    } else if l.Exit? || l.GiveUp? {
      QuitKeepsIdentity(s, l);
    } else {
      hide IsKey, Issued, GatewayOk, Validate, BuildState, Decide, Migrate;
    }
  }

  lemma {:induction false} RunKeepsIdentity(s: System, ls: seq<Label>)
    requires Inv(s) && Run(s, ls).Some? && !FreshStart(s, ls)
    ensures Identity(Run(s, ls).value) in {Identity(s), None}
    decreases |ls|
  {
    if ls != [] {
      StepKeepsInv(s, ls[0]);
      StepKeepsIdentity(s, ls[0]);
      RunKeepsIdentity(Next(s, ls[0]).value, ls[1..]);
    }
  }

  /** The private key on disk changes only through a start that found no state:
      re-registering for another service set, however often it is retried,
      crashes or is saved again after a removal, keeps it. */
  lemma KeyChangesOnlyAtFreshStart(s: System, ls: seq<Label>)
    requires Inv(s) && Run(s, ls).Some?
    requires KeyOnDisk(s.disk).Some? && KeyOnDisk(Run(s, ls).value.disk).Some?
    requires KeyOnDisk(Run(s, ls).value.disk) != KeyOnDisk(s.disk)
    ensures FreshStart(s, ls)
  {
    RunKeepsInv(s, ls);
    if !FreshStart(s, ls) {
      RunKeepsIdentity(s, ls);
      IdentityOnDisk(s);
      IdentityOnDisk(Run(s, ls).value);
      hide Inv, Identity, KeyOnDisk, Run, FreshStart;
      assert false;
    }
  }

  /** Every request on the wire carries this key. */
  predicate OnlyKey(s: System, key: string) {
    forall r :: r in s.gateway.wire ==> r.publicKey == PublicOf(key)
  }

  lemma StepKeepsOnlyKey(s: System, l: Label, key: string)
    requires Next(s, l).Some? && OnlyKey(s, key) && Identity(s) in {Some(key), None}
    ensures OnlyKey(Next(s, l).value, key)
  {
    hide IsKey, Validate, StatesOf, Migrate;
  }

  lemma {:induction false} RunKeepsOnlyKey(s: System, ls: seq<Label>, key: string)
    requires Inv(s) && Run(s, ls).Some? && !FreshStart(s, ls)
    requires OnlyKey(s, key) && Identity(s) in {Some(key), None}
    ensures OnlyKey(Run(s, ls).value, key)
    decreases |ls|
  {
    if ls != [] {
      StepKeepsInv(s, ls[0]);
      StepKeepsIdentity(s, ls[0]);
      StepKeepsOnlyKey(s, ls[0], key);
      hide Inv, Next, Identity;
      RunKeepsOnlyKey(Next(s, ls[0]).value, ls[1..], key);
    }
  }

  /** Re-registering does not reset the tunnel: as long as the state file is
      there at every start, the seat's peer is the same key or the seat is
      revoked, whatever the interleaving. */
  lemma ReRegistrationKeepsPeer(s: System, ls: seq<Label>, key: string)
    requires Inv(s) && Run(s, ls).Some? && !FreshStart(s, ls)
    requires OnlyKey(s, key) && Identity(s) == Some(key)
    ensures var g := Run(s, ls).value.gateway; g.active.Some? ==> g.peer == Some(PublicOf(key))
  {
    RunKeepsInv(s, ls);
    RunKeepsOnlyKey(s, ls, key);
  }

  // ---------- no token ----------

  /** A host that has a state file starts without a token, whatever is
      configured: at the end of any run, the next such start runs with the
      state on disk. */
  lemma NoTokenKeepsRunning(s: System, ls: seq<Label>, ports: seq<int>, generated: Option<string>)
    requires Inv(s) && Run(s, ls).Some? && (generated.Some? ==> IsKey(generated.value))
    requires var t := Run(s, ls).value; t.process.Down? && t.disk.main.Some?
    ensures var t, u := Run(s, ls).value, Run(s, ls + [Start(ports, false, generated)]);
            && t.disk.main.value.Whole? && u.Some? && u.value.process.Running?
            && u.value.process.state.(services := t.disk.main.value.doc.services) == t.disk.main.value.doc
            && (t.disk.main.value.doc.services != [] ==> u.value.process.state == t.disk.main.value.doc)
            && u.value == t.(process := u.value.process)
  {
    RunKeepsInv(s, ls);
    RunThenStep(s, ls, Start(ports, false, generated));
    hide IsKey, Issued, GatewayOk, Run, RegistrationKey;
  }

  /** A host that is never given a token sends no registration request. */
  lemma {:induction false} NoTokenNeverRegisters(s: System, ls: seq<Label>)
    requires Run(s, ls).Some? && !s.process.Registering?
    requires forall i :: 0 <= i < |ls| && ls[i].Start? ==> !ls[i].hasToken
    ensures Run(s, ls).value.gateway.wire == s.gateway.wire && !Run(s, ls).value.process.Registering?
    decreases |ls|
  {
    if ls != [] {
      NoTokenNeverRegisters(Next(s, ls[0]).value, ls[1..]);
    }
  }

  // ---------- restarts ----------

  predicate SameUpToTest(a: State, b: State) { a.(speedtestDone := b.speedtestDone) == b }

  /** The state file holds this registration, and so does any process. */
  predicate Settled(s: System, st: State) {
    && st.services != []
    && s.disk.main.Some? && s.disk.main.value.Whole? && SameUpToTest(Migrate(s.disk.main.value.doc), st)
    && (s.process.Down?
        || (Alive(s.process) && SameUpToTest(s.process.state, st)
            && (s.process.test.Writing? ==> SaveOk(s.disk, s.process.state, s.process.test.reached))))
  }

  /** Every start is configured with these ports, in some order, and no
      revocation removes the state file. */
  predicate Restarts(ls: seq<Label>, ports: seq<int>) {
    && (forall i :: 0 <= i < |ls| && ls[i].Start? ==> multiset(ls[i].ports) == multiset(ports))
    && (forall i :: 0 <= i < |ls| && ls[i].RevocationSeen? ==> !ls[i].removed)
  }

  lemma SettledDecides(s: System, st: State, ports: seq<int>, hasToken: bool, generated: Option<string>)
    requires Settled(s, st) && multiset(ports) == multiset(PortsOf(st.services))
    ensures Decide(s.disk.main, ports, hasToken, generated) == UseExisting(Migrate(s.disk.main.value.doc))
  {
    assert PortsOf(Migrate(s.disk.main.value.doc).services) == PortsOf(st.services);
  }

  lemma StepKeepsSettled(s: System, l: Label, st: State)
    requires Settled(s, st) && Next(s, l).Some?
    requires l.Start? ==> multiset(l.ports) == multiset(PortsOf(st.services))
    requires l.RevocationSeen? ==> !l.removed
    ensures Settled(Next(s, l).value, st) && Next(s, l).value.gateway.wire == s.gateway.wire
  {
    if l.Start? {
      SettledDecides(s, st, l.ports, l.hasToken, l.generated);
    }
    hide IsKey, Validate, BuildState, Decide;
  }

  lemma {:induction false} RunKeepsSettled(s: System, ls: seq<Label>, st: State)
    requires Settled(s, st) && Restarts(ls, PortsOf(st.services)) && Run(s, ls).Some?
    ensures Settled(Run(s, ls).value, st) && Run(s, ls).value.gateway.wire == s.gateway.wire
    decreases |ls|
  {
    if ls != [] {
      StepKeepsSettled(s, ls[0], st);
      assert Restarts(ls[1..], PortsOf(st.services)) by {
        assert forall i :: 0 <= i < |ls| - 1 ==> ls[1..][i] == ls[i + 1];
      }
      hide Settled, Next, Restarts;
      RunKeepsSettled(Next(s, ls[0]).value, ls[1..], st);
    }
  }

  /** For a running registration, no later start, however often the process
      crashes, is restarted or saves in between, sends another registration:
      exactly when the registration covers the configured ports. */
  lemma RestartsNeverRegister(s: System, st: State, ports: seq<int>)
    requires Inv(s) && Settled(s, st)
    ensures multiset(PortsOf(st.services)) == multiset(ports) <==>
            (forall ls :: Restarts(ls, ports) && Run(s, ls).Some? ==>
                            Run(s, ls).value.gateway.wire == s.gateway.wire)
  {
    if multiset(PortsOf(st.services)) == multiset(ports) {
      forall ls | Restarts(ls, ports) && Run(s, ls).Some?
        ensures Run(s, ls).value.gateway.wire == s.gateway.wire
      {
        RunKeepsSettled(s, ls, st);
      }
    } else {
      var ls := RegistersAgain(s, st, ports);
    }
  }

  lemma RegistersAgain(s: System, st: State, ports: seq<int>) returns (ls: seq<Label>)
    requires Inv(s) && Settled(s, st) && multiset(PortsOf(st.services)) != multiset(ports)
    ensures Restarts(ls, ports) && Run(s, ls).Some? && Run(s, ls).value.gateway.wire != s.gateway.wire
  {
    ls := [Exit, Start(ports, true, None), Send];
    var doc := Migrate(s.disk.main.value.doc);
    IssuedIsMigrated(s.gateway, s.disk.main.value.doc);
    assert PortsOf(doc.services) == PortsOf(st.services);
    var down := s.(process := Down);
    assert Decide(down.disk.main, ports, true, None) == Register(Some(doc), doc.privateKey);
    var registering := down.(process := Registering(Some(doc), doc.privateKey, ports, None));
    var request := Request(s.nextID, PublicOf(doc.privateKey), ports);
    hide Decide, Issued, IsKey;
    assert request !in s.gateway.wire;
    var sent := Next(registering, Send).value;
    assert request in sent.gateway.wire;
    assert Next(s, ls[0]) == Some(down) && Next(down, ls[1]) == Some(registering);
    ThreeSteps(s, ls, down, registering, sent);
  }

  /** An upgraded host stays registered for its one service: its port is the
      registered service port, or 8096 when there was none, and no run of
      restarts configured for that port sends another registration. */
  lemma UpgradeNeverRegisters(grant: Grant, key: string, done: bool, ls: seq<Label>)
    requires Complete(grant.response) && grant.response.services == [] && grant.response.subdomain != ""
    requires IsKey(key) && grant.request.publicKey == PublicOf(key)
    requires Restarts(ls, [if grant.response.servicePort == 0 then 8096 else grant.response.servicePort])
    requires Run(Upgraded(grant, key, done), ls).Some?
    ensures Run(Upgraded(grant, key, done), ls).value.gateway.wire == Upgraded(grant, key, done).gateway.wire
  {
    var s := Upgraded(grant, key, done);
    var st := Migrate(s.disk.main.value.doc);
    var p := if grant.response.servicePort == 0 then 8096 else grant.response.servicePort;
    assert PortsOf(st.services) == [p];
    assert Settled(s, st);
    hide Upgraded, Migrate, Settled;
    RunKeepsSettled(s, ls, st);
  }

  lemma ThreeSteps(s: System, ls: seq<Label>, t: System, u: System, v: System)
    requires |ls| == 3 && Next(s, ls[0]) == Some(t) && Next(t, ls[1]) == Some(u) && Next(u, ls[2]) == Some(v)
    ensures Run(s, ls) == Some(v)
  {
    hide Next;
    assert ls[1..][0] == ls[1] && ls[1..][1..][0] == ls[2] && ls[1..][1..][1..] == [];
    assert Run(v, []) == Some(v);
    assert Run(u, ls[1..][1..]) == Some(v);
  }

  // ---------- after a revocation ----------

  predicate NoStart(ls: seq<Label>) { forall i :: 0 <= i < |ls| ==> !ls[i].Start? }

  /** The state file is gone and nothing is about to write it. */
  predicate Removed(s: System) {
    && s.disk.main.None?
    && (s.process.Down? || (s.process.Stopping? && (s.process.test.Quiet? || s.process.test.Reporting?)))
  }

  lemma StepStaysRemoved(s: System, l: Label)
    requires Inv(s) && Removed(s) && !l.Start? && Next(s, l).Some?
    ensures Removed(Next(s, l).value)
  {
    hide Issued, GatewayOk, IsKey, Validate, BuildState, Decide;
  }

  lemma {:induction false} StaysRemoved(s: System, ls: seq<Label>)
    requires Inv(s) && Removed(s) && NoStart(ls) && Run(s, ls).Some?
    ensures Run(s, ls).value.disk.main.None?
    decreases |ls|
  {
    if ls != [] {
      StepKeepsInv(s, ls[0]);
      StepStaysRemoved(s, ls[0]);
      hide Inv, Next, Removed;
      StaysRemoved(Next(s, ls[0]).value, ls[1..]);
    }
  }

  /** The rest of a save in progress. */
  function FinishSave(reached: nat): seq<Label>
    requires reached < 3
    decreases 3 - reached
  {
    [SaveStep] + if reached == 2 then [] else FinishSave(reached + 1)
  }

  lemma {:induction false} SaveFinishes(s: System)
    requires s.process.Stopping? && s.process.test.Writing?
    requires SaveOk(s.disk, s.process.state, s.process.test.reached)
    ensures NoStart(FinishSave(s.process.test.reached))
    ensures Run(s, FinishSave(s.process.test.reached)).Some?
    ensures Run(s, FinishSave(s.process.test.reached)).value.disk.main == Some(Whole(s.process.state))
    decreases 3 - s.process.test.reached
  {
    var n := s.process.test.reached;
    var t := Next(s, SaveStep).value;
    assert FinishSave(n)[0] == SaveStep;
    if n < 2 {
      SaveFinishes(t);
      assert FinishSave(n)[1..] == FinishSave(n + 1);
    } else {
      assert FinishSave(n)[1..] == [];
    }
  }

  /** A test whose report the gateway has accepted brings the dead registration
      back, whether its answer has arrived or is still on its way. */
  lemma SaveComesBack(s: System) returns (ls: seq<Label>)
    requires Inv(s) && s.process.Stopping? && (s.process.test.Reported? || s.process.test.Writing?)
    ensures NoStart(ls) && Run(s, ls).Some?
    ensures Run(s, ls).value.disk.main == Some(Whole(s.process.state.(
              speedtestDone := s.process.test.Reported? || s.process.state.speedtestDone)))
  {
    if s.process.test.Writing? {
      SaveFinishes(s);
      ls := FinishSave(s.process.test.reached);
    } else {
      var t := Next(s, TestReported).value;
      SaveFinishes(t);
      ls := [TestReported] + FinishSave(0);
      assert ls[0] == TestReported && ls[1..] == FinishSave(0);
    }
  }

  /** After a revocation has removed the state, it stays removed until the next
      start exactly when the gateway had not accepted the report of a speed test
      that is still to be saved. */
  lemma RemovedUnlessReported(s: System)
    requires Inv(s) && s.process.Stopping? && s.disk.main.None?
    ensures s.process.test.Quiet? || s.process.test.Reporting? <==>
            (forall ls :: NoStart(ls) && Run(s, ls).Some? ==> Run(s, ls).value.disk.main.None?)
  {
    if s.process.test.Quiet? || s.process.test.Reporting? {
      forall ls | NoStart(ls) && Run(s, ls).Some?
        ensures Run(s, ls).value.disk.main.None?
      {
        StaysRemoved(s, ls);
      }
    } else {
      var ls := SaveComesBack(s);
    }
  }

  lemma {:induction false} RunConcat(s: System, ls: seq<Label>, more: seq<Label>)
    requires Run(s, ls).Some?
    ensures Run(s, ls + more) == Run(Run(s, ls).value, more)
    decreases |more|
  {
    if more == [] {
      assert ls + more == ls;
    } else {
      RunThenStep(s, ls, more[0]);
      assert ls + more == ls + [more[0]] + more[1..];
      if Next(Run(s, ls).value, more[0]).Some? {
        RunConcat(s, ls + [more[0]], more[1..]);
      } else {
        NoRunBeyond(s, ls + [more[0]], more[1..]);
      }
    }
  }

  lemma {:induction false} NoRunBeyond(s: System, ls: seq<Label>, more: seq<Label>)
    requires Run(s, ls).None?
    ensures Run(s, ls + more).None?
    decreases |ls|
  {
    if Next(s, ls[0]).Some? {
      NoRunBeyond(Next(s, ls[0]).value, ls[1..], more);
      assert (ls + more)[1..] == ls[1..] + more;
    }
  }

  /** It does happen: a host that is revoked while the answer to an accepted
      report is on its way loses its state file and gets it back. */
  lemma RemovedStateReturns(grant: Grant, key: string, done: bool, ports: seq<int>) returns (ls: seq<Label>, more: seq<Label>)
    requires Complete(grant.response) && grant.response.services == []
    requires IsKey(key) && grant.request.publicKey == PublicOf(key)
    ensures var s := Run(Upgraded(grant, key, done), ls);
            && s.Some? && s.value.process.Stopping? && s.value.disk.main.None?
            && NoStart(more)
            && var t := Run(Upgraded(grant, key, done), ls + more);
               t.Some? && t.value.disk.main == Some(Whole(s.value.process.state.(speedtestDone := true)))
  {
    var s0 := Upgraded(grant, key, done);
    Beginnings(grant, key, done);
    var st := Migrate(s0.disk.main.value.doc);
    assert Next(s0, Start(ports, false, None)) == Some(s0.(process := Running(st, Quiet)));
    ls := [Start(ports, false, None)];
    assert Run(s0, ls) == Some(s0.(process := Running(st, Quiet))) by { assert ls[1..] == []; }
    assert s0.gateway.active == Some(st.agentSecret);
    hide Upgraded, Migrate, Decide, IsKey, Run;
    ls := TestThenRevoked(s0, ls, st);
    RunKeepsInv(s0, ls);
    more := SaveComesBack(Run(s0, ls).value);
    RunConcat(s0, ls, more);
  }

  lemma TestThenRevoked(s: System, ls: seq<Label>, st: State) returns (all: seq<Label>)
    requires Run(s, ls).Some? && Run(s, ls).value.process == Running(st, Quiet)
    requires Run(s, ls).value.gateway.active == Some(st.agentSecret)
    ensures Run(s, all).Some?
    ensures Run(s, all).value.process == Stopping(st, Reported) && Run(s, all).value.disk.main.None?
  {
    hide Run;
    RunThenStep(s, ls, ReportSent);
    RunThenStep(s, ls + [ReportSent], ReportAccepted);
    RunThenStep(s, ls + [ReportSent] + [ReportAccepted], Revoke);
    RunThenStep(s, ls + [ReportSent] + [ReportAccepted] + [Revoke], RevocationSeen(true));
    all := ls + [ReportSent] + [ReportAccepted] + [Revoke] + [RevocationSeen(true)];
  }

  // ---------- two speed tests at once ----------

  /** Overlapping saves of the running state, any number of them on any
      schedule, crash or not, may leave a file that does not load, but never
      one whose credentials and key do not belong together. */
  lemma OverlappingTestsNeverMix(s: System, shared: Shared, moves: seq<Move>)
    requires Inv(s) && s.process.Running?
    requires OneWriter(shared) && shared.writers == map[] && MainFile(shared) == s.disk.main
    requires OnlySaves(moves, s.process.state.(speedtestDone := true)) && Scheduled(shared, moves).Some?
    ensures var main := MainFile(Scheduled(shared, moves).value);
            main == Some(Torn) || Paired(s.(disk := Disk(main, s.disk.tmp)))
  {
    var doc := s.process.state.(speedtestDone := true);
    OverlapNeverMixes(shared, moves, doc);
    DoneIsIssued(s.gateway, s.process.state);
    hide Scheduled, MainFile, OneWriter, OnlySaves;
    var main := MainFile(Scheduled(shared, moves).value);
    if main == Some(Whole(doc)) {
      IssuedIsPaired(s, doc);
    } else if main == s.disk.main && s.disk.main.Some? {
      IssuedIsPaired(s, s.disk.main.value.doc);
    }
    hide Issued;
  }

  lemma IssuedIsPaired(s: System, st: State)
    requires Inv(s) && Issued(s.gateway, st)
    ensures s.gateway.active == Some(st.agentSecret) ==> s.gateway.peer == Some(PublicOf(st.privateKey))
  {
    hide ProcessOk, IsKey, Validate, BuildState;
  }
}
