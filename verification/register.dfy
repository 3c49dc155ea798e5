/** internal/register: the registration request and response, the error
    classes, and the state that a registration leaves behind. */
module Register {
  import opened Basics
  import opened Text

  datatype Peer = Peer(publicKey: string, endpoint: string, allowedIPs: seq<string>, keepalive: int)
  datatype WireGuardConfig = WireGuardConfig(address: string, mtu: int, peer: Peer)
  datatype SpeedtestConfig = SpeedtestConfig(uploadURL: string, sizeBytes: int, maxSeconds: int)
  datatype ServiceResult = ServiceResult(name: string, subdomain: string, servicePort: int)

  datatype Response = Response(
    agentID: string, agentSecret: string, subdomain: string, wireGuard: WireGuardConfig,
    servicePort: int, services: seq<ServiceResult>, heartbeatInterval: int, speedtest: SpeedtestConfig)

  // ---------- errors ----------

  datatype APIError = APIError(status: int, code: string, message: string)
  {
    predicate Fatal() { code == "invalid_token" || code == "invalid_agent" }
    predicate Retryable() { status >= 500 || status == 429 }
  }

  /** The JSON error envelope, when the body parses as one. */
  datatype Envelope = Envelope(code: string, message: string)

  /** A body without a usable envelope is never mistaken for a revoked or
      rejected credential. */
  function ParseErrorBody(status: int, envelope: Option<Envelope>, body: string): (e: APIError)
    ensures e.status == status
    ensures e.Fatal() <==> envelope.Some? && envelope.value.code in {"invalid_token", "invalid_agent"}
    ensures e.Retryable() <==> status >= 500 || status == 429
    ensures envelope.Some? && envelope.value.code != "" ==>
              e.code == envelope.value.code && e.message == envelope.value.message
  {
    if envelope.Some? && envelope.value.code != ""
    then APIError(status, envelope.value.code, envelope.value.message)
    else APIError(status, "unknown", Trim(body))
  }

  // ---------- validation ----------

  predicate Complete(r: Response) {
    && r.agentID != "" && r.agentSecret != ""
    && r.wireGuard.address != "" && r.wireGuard.peer.publicKey != ""
    && r.wireGuard.peer.endpoint != "" && r.wireGuard.peer.allowedIPs != []
  }

  /** Completeness check and defaults: None for a response with a missing
      field. */
  function Validate(r: Response): (v: Option<Response>)
    ensures v.None? <==> r.agentID == "" || r.agentSecret == "" || r.wireGuard.address == ""
                         || r.wireGuard.peer.publicKey == "" || r.wireGuard.peer.endpoint == ""
                         || r.wireGuard.peer.allowedIPs == []
    ensures v.Some? <==> Complete(r)
    ensures v.Some? ==>
              && v.value.heartbeatInterval > 0 && v.value.wireGuard.mtu > 0
              && v.value.heartbeatInterval in {r.heartbeatInterval, 60} && v.value.wireGuard.mtu in {r.wireGuard.mtu, 1280}
              && (r.heartbeatInterval > 0 ==> v.value.heartbeatInterval == r.heartbeatInterval)
              && (r.wireGuard.mtu > 0 ==> v.value.wireGuard.mtu == r.wireGuard.mtu)
              && v.value.(heartbeatInterval := r.heartbeatInterval,
                          wireGuard := v.value.wireGuard.(mtu := r.wireGuard.mtu)) == r
  {
    if r.agentID == "" then None
    else if r.agentSecret == "" then None
    else if r.wireGuard.address == "" then None
    else if r.wireGuard.peer.publicKey == "" then None
    else if r.wireGuard.peer.endpoint == "" then None
    else if r.wireGuard.peer.allowedIPs == [] then None
    else
      var interval := if r.heartbeatInterval <= 0 then 60 else r.heartbeatInterval;
      var mtu := if r.wireGuard.mtu <= 0 then 1280 else r.wireGuard.mtu;
      Some(r.(heartbeatInterval := interval, wireGuard := r.wireGuard.(mtu := mtu)))
  }

  lemma ValidateIdempotent(r: Response)
    requires Complete(r)
    ensures Validate(Validate(r).value) == Validate(r)
  {
  }

  // ---------- keys ----------

  /** The public half of a key; distinct private keys have distinct ones. */
  datatype PublicKey = PublicOf(privateKey: string)

  /** The base64 text of 32 bytes, as Key.String prints it: the last digit's
      two spare bits are zero. */
  predicate IsKey(text: string) {
    && |text| == 44 && text[43] == '=' && text[42] in "AEIMQUYcgkosw048"
    && forall i :: 0 <= i < 43 ==>
                     'A' <= text[i] <= 'Z' || 'a' <= text[i] <= 'z' || IsDigit(text[i]) || text[i] == '+' || text[i] == '/'
  }

  // ---------- state ----------

  datatype ServiceState = ServiceState(name: string, subdomain: string, port: int)

  datatype State = State(
    agentID: string, agentSecret: string, subdomain: string, privateKey: string,
    wireGuard: WireGuardConfig, servicePort: int, services: seq<ServiceState>,
    heartbeatInterval: int, speedtest: SpeedtestConfig, speedtestDone: bool)
  {
    method Ports() returns (ports: seq<int>)
      ensures ports == PortsOf(services)
      ensures |ports| == |services| && forall i :: 0 <= i < |services| ==> ports[i] == services[i].port
    {
      ports := [];
      for i := 0 to |services|
        invariant ports == PortsOf(services[..i])
      {
        assert PortsOf(services[..i + 1]) == PortsOf(services[..i]) + [services[i].port];
        ports := ports + [services[i].port];
      }
      assert services[..|services|] == services;
    }
  }

  function PortsOf(services: seq<ServiceState>): seq<int>
  {
    seq(|services|, i requires 0 <= i < |services| => services[i].port)
  }

  /** serviceStates: without a services array the top-level fields stand for
      one primary service, so the result is never empty. */
  function StatesOf(resp: Response): (ss: seq<ServiceState>)
    ensures ss != []
  {
    if resp.services == [] then
      [ServiceState(resp.subdomain, resp.subdomain, resp.servicePort)]
    else
      seq(|resp.services|, i requires 0 <= i < |resp.services| =>
        var s := resp.services[i];
        ServiceState(s.name, s.subdomain, s.servicePort))
  }

  method ServiceStates(resp: Response) returns (out: seq<ServiceState>)
    ensures out == StatesOf(resp)
    ensures resp.services == [] ==>
              |out| == 1 && out[0].name == out[0].subdomain == resp.subdomain && out[0].port == resp.servicePort
    ensures resp.services != [] ==> |out| == |resp.services|
    ensures resp.services != [] ==> forall i :: 0 <= i < |resp.services| ==>
              && out[i].name == resp.services[i].name && out[i].subdomain == resp.services[i].subdomain
              && out[i].port == resp.services[i].servicePort
  {
    if resp.services == [] {
      return [ServiceState(resp.subdomain, resp.subdomain, resp.servicePort)];
    }
    out := [];
    for i := 0 to |resp.services|
      invariant out == StatesOf(resp)[..i]
    {
      var s := resp.services[i];
      out := out + [ServiceState(s.name, s.subdomain, s.servicePort)];
    }
  }

  /** The state registerAgent builds from one response and one key. */
  function BuildState(resp: Response, key: string): State {
    State(resp.agentID, resp.agentSecret, resp.subdomain, key, resp.wireGuard, resp.servicePort,
          StatesOf(resp), resp.heartbeatInterval, resp.speedtest, false)
  }

  /** The migration LoadState applies to files from before multi-service. */
  function Migrate(s: State): State {
    if s.services == [] && s.subdomain != "" then
      var port := if s.servicePort == 0 then 8096 else s.servicePort;
      s.(services := [ServiceState(s.subdomain, s.subdomain, port)])
    else s
  }

  /** Migration happens once, keeps every credential, and leaves a state alone
      exactly when it lists services or has no subdomain. */
  lemma MigrateOnce(s: State)
    ensures Migrate(Migrate(s)) == Migrate(s)
    ensures Migrate(s) == s <==> s.services != [] || s.subdomain == ""
    ensures Migrate(s).(services := s.services) == s
  {
  }
}
