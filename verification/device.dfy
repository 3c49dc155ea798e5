/** internal/tunnel/tunnel_linux.go: creating, configuring and releasing the
    tunnel device, with any of the calls on the way failing. */
module Device {
  /** An allowed IP as configured, and the network it parses to. */
  datatype AllowedIP = AllowedIP(cidr: string, network: string)

  datatype Config = Config(
    interfaceName: string, privateKey: string, address: string, mtu: int, forceUserspace: bool,
    peerKey: string, allowedIPs: seq<AllowedIP>, keepalive: int)
  {
    function Networks(): (ns: seq<string>)
      ensures |ns| == |allowedIPs|
    {
      seq(|allowedIPs|, i requires 0 <= i < |allowedIPs| => allowedIPs[i].network)
    }
  }

  datatype Kind = WireGuard | Tun
  datatype Peer = Peer(publicKey: string, endpoint: string, allowed: seq<string>, keepalive: int)
  datatype Link = Link(kind: Kind, addresses: set<string>, mtu: int, up: bool, privateKey: string, peers: seq<Peer>)

  /** The calls that may fail, those of Close last. */
  datatype Call =
    | LookupStale | DeleteStale | AddLink | CreateTun | OpenUAPI | ListenUAPI | DeviceUp
    | LookupLink | ParseAddress | AddAddress | SetMTU | SetUp | NewClient
    | ParsePrivateKey | ParsePeerKey | ResolveEndpoint | ParseAllowed(index: nat) | ConfigureDevice
    | LookupForRoutes | ParseRoute(index: nat) | AddRoute(index: nat)
    | CloseClient | CloseListener | LookupLast | DeleteLast

  /** What the set-up leaves on the host: links by name, routes by destination,
      and how many wgctrl clients, UAPI listeners and UAPI files outside a
      listener are open. */
  datatype Host =
    Host(links: map<string, Link>, routes: map<string, string>, clients: int, listeners: int, uapiFiles: int)

  /** Deleting a link takes the routes through it along. */
  function WithoutLink(h: Host, name: string): Host {
    h.(links := h.links - {name}, routes := map n | n in h.routes && h.routes[n] != name :: h.routes[n])
  }

  /** Routes through `name` for the networks that have none yet; an existing
      route, through whatever link, is left alone. */
  function WithRoutes(routes: map<string, string>, name: string, networks: seq<string>): map<string, string> {
    routes + map n | n in networks && n !in routes :: name
  }

  lemma RoutesAre(routes: map<string, string>, name: string, networks: seq<string>, n: string)
    ensures var after := WithRoutes(routes, name, networks);
            && (n in after <==> n in routes || n in networks)
            && (n in routes ==> after[n] == routes[n])
            && (n in networks && n !in routes ==> after[n] == name)
  {
  }

  /** The one peer that configure installs. */
  function PeerOf(cfg: Config, endpoint: string): Peer {
    Peer(cfg.peerKey, endpoint, cfg.Networks(), if cfg.keepalive <= 0 then 25 else cfg.keepalive)
  }

  /** The host once the device is up. */
  function Opened(h: Host, cfg: Config, endpoint: string, kind: Kind): Host {
    var base := WithoutLink(h, cfg.interfaceName);
    Host(base.links[cfg.interfaceName :=
           Link(kind, {cfg.address}, cfg.mtu, true, cfg.privateKey, [PeerOf(cfg, endpoint)])],
         WithRoutes(base.routes, cfg.interfaceName, cfg.Networks()),
         h.clients + 1, h.listeners + if kind == Tun then 1 else 0, h.uapiFiles)
  }

  /** Every route goes through an existing link. */
  predicate HostOk(h: Host) { forall n :: n in h.routes ==> h.routes[n] in h.links }

  predicate InUserspace(cfg: Config, supported: bool) { cfg.forceUserspace || !supported }

  predicate CloseFails(faults: set<Call>) {
    CloseClient in faults || CloseListener in faults || LookupLast in faults || DeleteLast in faults
  }

  function One(b: bool): int { if b then 1 else 0 }

  /** `after` is `base` but for what failing clean-up calls left behind: of the
      link, the client and the listener each only if the call that releases it
      failed; and of UAPI files one, only if listening on it failed. */
  predicate LeftBehind(base: Host, after: Host, name: string, faults: set<Call>, userspace: bool) {
    && WithoutLink(after, name).(clients := base.clients, listeners := base.listeners, uapiFiles := base.uapiFiles) == base
    && base.clients <= after.clients <= base.clients + One(CloseClient in faults)
    && base.listeners <= after.listeners <= base.listeners + One(userspace && CloseListener in faults)
    && base.uapiFiles <= after.uapiFiles <= base.uapiFiles + One(userspace && ListenUAPI in faults)
    && (name in after.links ==> !userspace && (LookupLast in faults || DeleteLast in faults))
  }

  /** Nothing is left behind when no clean-up call fails and there is no UAPI
      file that could not be listened on. */
  lemma NothingLeftBehind(base: Host, after: Host, name: string, faults: set<Call>, userspace: bool)
    requires LeftBehind(base, after, name, faults, userspace) && HostOk(after)
    requires !CloseFails(faults) && !(userspace && ListenUAPI in faults)
    ensures after == base
  {
    NothingToDelete(after, name);
  }

  lemma NothingToDelete(h: Host, name: string)
    requires HostOk(h) && name !in h.links
    ensures WithoutLink(h, name) == h
  {
  }

  lemma OneMoreRoute(routes: map<string, string>, name: string, networks: seq<string>, i: nat)
    requires i < |networks|
    ensures var before := WithRoutes(routes, name, networks[..i]);
            WithRoutes(routes, name, networks[..i + 1])
            == if networks[i] in before then before else before[networks[i] := name]
  {
    assert networks[..i + 1] == networks[..i] + [networks[i]];
  }

  lemma OwnRoute(h: Host, name: string, network: string)
    requires HostOk(h) && name in h.links && network !in h.routes
    ensures var after := h.(routes := h.routes[network := name]);
            HostOk(after) && WithoutLink(after, name) == WithoutLink(h, name)
  {
  }

  class Kernel {
    var host: Host

    constructor (h: Host)
      ensures host == h
    {
      host := h;
    }

    /** LinkByName. */
    method Lookup(name: string, fails: bool) returns (found: bool)
      ensures found <==> !fails && name in host.links
    {
      found := !fails && name in host.links;
    }

    method Delete(name: string)
      modifies this
      ensures host == WithoutLink(old(host), name)
    {
      host := WithoutLink(host, name);
    }
  }

  class LinuxDevice {
    const kernel: Kernel
    const cfg: Config
    var wg: bool        // a wgctrl client is open
    var usDev: bool     // userspace mode: the wireguard-go device
    var usUAPI: bool    // userspace mode: its UAPI listener

    constructor (kernel: Kernel, cfg: Config)
      ensures this.kernel == kernel && this.cfg == cfg && !wg && !usDev && !usUAPI
    {
      this.kernel, this.cfg := kernel, cfg;
      wg, usDev, usUAPI := false, false, false;
    }

    /** The host without anything this device holds. */
    ghost function Released(): Host
      reads this, kernel
    {
      var h := WithoutLink(kernel.host, cfg.interfaceName);
      h.(clients := h.clients - (if wg then 1 else 0), listeners := h.listeners - (if usUAPI then 1 else 0))
    }

    /** The host once Close has tried every clean-up call. */
    ghost function Freed(faults: set<Call>): Host
      reads this, kernel
    {
      var h := if usDev || (LookupLast !in faults && DeleteLast !in faults)
               then WithoutLink(kernel.host, cfg.interfaceName) else kernel.host;
      h.(clients := h.clients - One(wg && CloseClient !in faults),
         listeners := h.listeners - One(usUAPI && CloseListener !in faults))
    }

    /** Close makes every clean-up call, whichever of them fail, so each failure
        leaves just its own resource. */
    method Close(faults: set<Call>)
      requires HostOk(kernel.host)
      modifies kernel
      ensures kernel.host == old(Freed(faults)) && HostOk(kernel.host)
      ensures !CloseFails(faults) ==> kernel.host == old(Released())
    {
      if wg && CloseClient !in faults {
        kernel.host := kernel.host.(clients := kernel.host.clients - 1);
      }
      if usUAPI && CloseListener !in faults {
        kernel.host := kernel.host.(listeners := kernel.host.listeners - 1);
      }
      if usDev {
        kernel.Delete(cfg.interfaceName);
      } else {
        var found := kernel.Lookup(cfg.interfaceName, LookupLast in faults);
        if found {
          if DeleteLast !in faults {
            kernel.Delete(cfg.interfaceName);
          }
        } else if cfg.interfaceName !in kernel.host.links {
          NothingToDelete(kernel.host, cfg.interfaceName);
        }
      }
    }

    lemma FreedIsLeft(faults: set<Call>)
      requires usDev == usUAPI && HostOk(kernel.host)
      ensures LeftBehind(Released(), Freed(faults), cfg.interfaceName, faults, usDev)
    {
    }

    /** Listening is reached and fails: the one path that leaves a file open. */
    predicate ListenFails(faults: set<Call>)
      reads kernel
    {
      && CreateTun !in faults && cfg.interfaceName !in kernel.host.links
      && OpenUAPI !in faults && ListenUAPI in faults
    }

    /** Bringing the device up is reached and fails, and so does closing the
        listener again. */
    predicate ListenerStays(faults: set<Call>)
      reads kernel
    {
      && CreateTun !in faults && cfg.interfaceName !in kernel.host.links
      && OpenUAPI !in faults && ListenUAPI !in faults && DeviceUp in faults && CloseListener in faults
    }

    /** startUserspace: an error leaves the host as it was, but for an open UAPI
        file exactly when listening on it is what failed, and for a listener
        exactly when it could not be closed again. */
    method StartUserspace(faults: set<Call>) returns (ok: bool)
      requires HostOk(kernel.host) && !wg && !usDev && !usUAPI
      modifies this, kernel
      ensures !ok ==> kernel.host == old(kernel.host).(
                uapiFiles := old(kernel.host.uapiFiles) + One(old(ListenFails(faults))),
                listeners := old(kernel.host.listeners) + One(old(ListenerStays(faults))))
      ensures faults == {} && cfg.interfaceName !in old(kernel.host.links) ==> ok
      ensures ok ==>
                && cfg.interfaceName !in old(kernel.host.links) && HostOk(kernel.host)
                && usDev && usUAPI && !wg && Released() == old(kernel.host)
                && kernel.host == old(kernel.host).(
                     links := old(kernel.host.links)[cfg.interfaceName := Link(Tun, {}, cfg.mtu, false, "", [])],
                     listeners := old(kernel.host.listeners) + 1)
    {
      var name := cfg.interfaceName;
      if CreateTun in faults || name in kernel.host.links {
        return false;
      }
      NothingToDelete(kernel.host, name);
      kernel.host := kernel.host.(links := kernel.host.links[name := Link(Tun, {}, cfg.mtu, false, "", [])]);
      usDev := true;
      assert WithoutLink(kernel.host, name) == old(kernel.host);
      if OpenUAPI in faults {
        kernel.Delete(name);
        return false;
      }
      kernel.host := kernel.host.(uapiFiles := kernel.host.uapiFiles + 1);
      if ListenUAPI in faults {
        kernel.Delete(name);
        return false;
      }
      kernel.host := kernel.host.(uapiFiles := kernel.host.uapiFiles - 1, listeners := kernel.host.listeners + 1);
      usUAPI := true;
      assert Released() == old(kernel.host);
      if DeviceUp in faults {
        Close(faults);
        return false;
      }
      return true;
    }

    /** configure: on success the link has exactly the one configured peer, at
        the endpoint as resolved now, kept alive every 25 seconds unless
        configured otherwise; on an error it is as it was. */
    method Configure(faults: set<Call>, endpoint: string) returns (ok: bool)
      requires HostOk(kernel.host)
      modifies kernel
      ensures HostOk(kernel.host) && Released() == old(Released())
      ensures !ok ==> kernel.host == old(kernel.host)
      ensures faults == {} && cfg.interfaceName in old(kernel.host.links) ==> ok
      ensures ok ==>
                && cfg.interfaceName in old(kernel.host.links)
                && kernel.host == old(kernel.host).(links := old(kernel.host.links)[cfg.interfaceName :=
                     old(kernel.host.links)[cfg.interfaceName].(privateKey := cfg.privateKey, peers := [PeerOf(cfg, endpoint)])])
      ensures ok ==>
                var peers := kernel.host.links[cfg.interfaceName].peers;
                && |peers| == 1 && peers[0].publicKey == cfg.peerKey && peers[0].endpoint == endpoint
                && peers[0].keepalive == (if cfg.keepalive > 0 then cfg.keepalive else 25)
                && |peers[0].allowed| == |cfg.allowedIPs|
                && forall i :: 0 <= i < |cfg.allowedIPs| ==> peers[0].allowed[i] == cfg.allowedIPs[i].network
    {
      if ParsePrivateKey in faults || ParsePeerKey in faults || ResolveEndpoint in faults {
        return false;
      }
      var allowed: seq<string> := [];
      for i := 0 to |cfg.allowedIPs|
        invariant allowed == cfg.Networks()[..i]
      {
        if ParseAllowed(i) in faults {
          return false;
        }
        allowed := allowed + [cfg.allowedIPs[i].network];
      }
      var keepalive := cfg.keepalive;
      if keepalive <= 0 {
        keepalive := 25;
      }
      var name := cfg.interfaceName;
      if ConfigureDevice in faults || name !in kernel.host.links {
        return false;
      }
      var peer := Peer(cfg.peerKey, endpoint, allowed, keepalive);
      kernel.host := kernel.host.(links := kernel.host.links[name :=
        kernel.host.links[name].(privateKey := cfg.privateKey, peers := [peer])]);
      assert allowed == cfg.Networks();
      assert WithoutLink(kernel.host, name) == WithoutLink(old(kernel.host), name);
      return true;
    }

    /** ensureRoutes: only adds routes through this link, for a prefix of the
        networks when a call fails and for all of them otherwise. */
    method EnsureRoutes(faults: set<Call>) returns (ok: bool, added: nat)
      requires HostOk(kernel.host)
      modifies kernel
      ensures HostOk(kernel.host) && Released() == old(Released())
      ensures faults == {} && cfg.interfaceName in old(kernel.host.links) ==> ok
      ensures added <= |cfg.allowedIPs| && (ok ==> added == |cfg.allowedIPs| && cfg.interfaceName in kernel.host.links)
      ensures kernel.host == old(kernel.host).(routes :=
                WithRoutes(old(kernel.host.routes), cfg.interfaceName, cfg.Networks()[..added]))
    {
      var name, networks := cfg.interfaceName, cfg.Networks();
      added := 0;
      assert WithRoutes(kernel.host.routes, name, networks[..0]) == kernel.host.routes;
      var found := kernel.Lookup(name, LookupForRoutes in faults);
      if !found {
        return false, 0;
      }
      hide WithoutLink, WithRoutes;
      for i := 0 to |networks|
        invariant added == i && HostOk(kernel.host) && Released() == old(Released())
        invariant kernel.host == old(kernel.host).(routes := WithRoutes(old(kernel.host.routes), name, networks[..i]))
      {
        if ParseRoute(i) in faults || AddRoute(i) in faults {
          return false, i;
        }
        OneMoreRoute(old(kernel.host.routes), name, networks, i);
        if networks[i] !in kernel.host.routes {
          OwnRoute(kernel.host, name, networks[i]);
          kernel.host := kernel.host.(routes := kernel.host.routes[networks[i] := name]);
        }
        added := i + 1;
      }
      return true, added;
    }

    /** finishSetup: whatever fails, only this device's own link, routes and
        client are touched. */
    method FinishSetup(faults: set<Call>, endpoint: string) returns (ok: bool)
      requires HostOk(kernel.host) && !wg
      modifies kernel, this`wg
      ensures faults == {} && cfg.interfaceName in old(kernel.host.links) ==> ok
      ensures HostOk(kernel.host) && Released() == old(Released())
      ensures ok ==>
                && wg && cfg.interfaceName in old(kernel.host.links)
                && var link := old(kernel.host.links)[cfg.interfaceName];
                   kernel.host == Host(
                     old(kernel.host.links)[cfg.interfaceName :=
                       Link(link.kind, link.addresses + {cfg.address}, if cfg.mtu > 0 then cfg.mtu else link.mtu, true,
                            cfg.privateKey, [PeerOf(cfg, endpoint)])],
                     WithRoutes(old(kernel.host.routes), cfg.interfaceName, cfg.Networks()),
                     old(kernel.host.clients) + 1, old(kernel.host.listeners), old(kernel.host.uapiFiles))
    {
      var name := cfg.interfaceName;
      var found := kernel.Lookup(name, LookupLink in faults);
      if !found || ParseAddress in faults || AddAddress in faults {
        return false;
      }
      var link := kernel.host.links[name];
      link := link.(addresses := link.addresses + {cfg.address});
      SetLink(link);
      if cfg.mtu > 0 {
        if SetMTU in faults {
          return false;
        }
        link := link.(mtu := cfg.mtu);
        SetLink(link);
      }
      if SetUp in faults {
        return false;
      }
      link := link.(up := true);
      SetLink(link);
      if NewClient in faults {
        return false;
      }
      kernel.host := kernel.host.(clients := kernel.host.clients + 1);
      wg := true;
      var configured := Configure(faults, endpoint);
      if !configured {
        return false;
      }
      var added;
      ok, added := EnsureRoutes(faults);
      assert ok ==> cfg.Networks()[..added] == cfg.Networks();
    }

    /** One netlink call on the device's link. */
    method SetLink(link: Link)
      requires HostOk(kernel.host) && cfg.interfaceName in kernel.host.links
      modifies kernel
      ensures HostOk(kernel.host) && Released() == old(Released())
      ensures kernel.host == old(kernel.host).(links := old(kernel.host.links)[cfg.interfaceName := link])
    {
      ghost var before := kernel.host;
      kernel.host := kernel.host.(links := kernel.host.links[cfg.interfaceName := link]);
      assert WithoutLink(kernel.host, cfg.interfaceName) == WithoutLink(before, cfg.interfaceName);
    }

    /** RefreshPeer: leaves the device with exactly one peer and adds nothing
        but its own missing routes; an error may have applied the peer. */
    method RefreshPeer(faults: set<Call>, endpoint: string) returns (ok: bool)
      requires HostOk(kernel.host)
      modifies kernel
      ensures HostOk(kernel.host) && Released() == old(Released())
      ensures kernel.host.links.Keys == old(kernel.host.links.Keys)
      ensures kernel.host.links == old(kernel.host.links) || HasOnlyPeer(endpoint)
      ensures ok ==> HasOnlyPeer(endpoint)
                     && kernel.host.routes == WithRoutes(old(kernel.host.routes), cfg.interfaceName, cfg.Networks())
      ensures exists n :: 0 <= n <= |cfg.allowedIPs| && kernel.host.routes ==
                            WithRoutes(old(kernel.host.routes), cfg.interfaceName, cfg.Networks()[..n])
      ensures kernel.host.clients == old(kernel.host.clients) && kernel.host.listeners == old(kernel.host.listeners)
    {
      var added := 0;
      assert WithRoutes(kernel.host.routes, cfg.interfaceName, cfg.Networks()[..0]) == kernel.host.routes;
      ok := Configure(faults, endpoint);
      if ok {
        ok, added := EnsureRoutes(faults);
        assert ok ==> cfg.Networks()[..added] == cfg.Networks();
      }
      assert kernel.host.routes == WithRoutes(old(kernel.host.routes), cfg.interfaceName, cfg.Networks()[..added]);
    }

    ghost predicate HasOnlyPeer(endpoint: string)
      reads this, kernel
    {
      && cfg.interfaceName in kernel.host.links
      && kernel.host.links[cfg.interfaceName].peers == [PeerOf(cfg, endpoint)]
    }
  }

  /** The first half of openDevice: the old interface goes, the new one is
      created, in the kernel if it knows WireGuard, else in userspace. */
  method CreateLink(d: LinuxDevice, faults: set<Call>, supported: bool) returns (ok: bool, kind: Kind)
    requires HostOk(d.kernel.host) && !d.wg && !d.usDev && !d.usUAPI
    modifies d, d.kernel
    ensures HostOk(d.kernel.host)
    ensures !ok ==>
              || d.kernel.host == old(d.kernel.host)
              || LeftBehind(WithoutLink(old(d.kernel.host), d.cfg.interfaceName), d.kernel.host, d.cfg.interfaceName,
                            faults, InUserspace(d.cfg, supported))
    ensures ok ==>
              && d.Released() == WithoutLink(old(d.kernel.host), d.cfg.interfaceName)
              && !d.wg && (kind == Tun <==> d.usDev) && (d.usDev <==> d.usUAPI)
              && (kind == Tun <==> d.cfg.forceUserspace || !supported)
              && var base := WithoutLink(old(d.kernel.host), d.cfg.interfaceName);
                 d.kernel.host == base.(links := base.links[d.cfg.interfaceName := Link(kind, {}, d.cfg.mtu, false, "", [])],
                                        listeners := base.listeners + if kind == Tun then 1 else 0)
    ensures faults == {} ==> ok
  {
    kind := WireGuard;
    var kernel, name := d.kernel, d.cfg.interfaceName;
    var stale := kernel.Lookup(name, LookupStale in faults);
    if stale {
      if DeleteStale in faults {
        return false, kind;
      }
      kernel.Delete(name);
    } else if name !in kernel.host.links {
      NothingToDelete(kernel.host, name);
    }
    if d.cfg.forceUserspace {
      kind := Tun;
    } else if name in kernel.host.links {
      return false, kind;
    } else if !supported {
      kind := Tun;
    } else if AddLink in faults {
      return false, kind;
    } else {
      NothingToDelete(kernel.host, name);
      ghost var base := kernel.host;
      kernel.host := kernel.host.(links := kernel.host.links[name := Link(WireGuard, {}, d.cfg.mtu, false, "", [])]);
      assert WithoutLink(kernel.host, name) == base;
      return true, kind;
    }
    ok := d.StartUserspace(faults);
  }

  predicate FailedOpen(before: Host, after: Host, cfg: Config, faults: set<Call>, supported: bool) {
    || after == before
    || LeftBehind(WithoutLink(before, cfg.interfaceName), after, cfg.interfaceName, faults, InUserspace(cfg, supported))
  }

  lemma CleanIfClosed(before: Host, after: Host, cfg: Config, faults: set<Call>, supported: bool)
    requires FailedOpen(before, after, cfg, faults, supported) && HostOk(after)
    ensures !CloseFails(faults) && !(InUserspace(cfg, supported) && ListenUAPI in faults) ==>
              after == before || after == WithoutLink(before, cfg.interfaceName)
  {
    if after != before && !CloseFails(faults) && !(InUserspace(cfg, supported) && ListenUAPI in faults) {
      NothingLeftBehind(WithoutLink(before, cfg.interfaceName), after, cfg.interfaceName, faults,
                        InUserspace(cfg, supported));
    }
  }

  /** openDevice: an error leaves no link, route, client, listener or file
      behind, but for what a failing clean-up call or the file that could not be
      listened on accounts for; it may only have removed a stale interface of
      the same name. Success leaves exactly the configured device. `supported`
      says whether the kernel knows WireGuard links. */
  method OpenDevice(kernel: Kernel, cfg: Config, faults: set<Call>, supported: bool, endpoint: string)
    returns (d: LinuxDevice?, kind: Kind)
    requires HostOk(kernel.host)
    modifies kernel
    ensures HostOk(kernel.host)
    ensures d == null ==> FailedOpen(old(kernel.host), kernel.host, cfg, faults, supported)
    ensures d == null && !CloseFails(faults) && !(InUserspace(cfg, supported) && ListenUAPI in faults) ==>
              kernel.host == old(kernel.host) || kernel.host == WithoutLink(old(kernel.host), cfg.interfaceName)
    ensures d != null ==>
              && fresh(d) && d.kernel == kernel && d.cfg == cfg
              && d.wg && (kind == Tun <==> d.usDev) && (d.usDev <==> d.usUAPI)
              && (kind == Tun <==> cfg.forceUserspace || !supported)
              && kernel.host == Opened(old(kernel.host), cfg, endpoint, kind)
              && d.Released() == WithoutLink(old(kernel.host), cfg.interfaceName)
    ensures faults == {} ==> d != null
  {
    d := new LinuxDevice(kernel, cfg);
    var created;
    created, kind := CreateLink(d, faults, supported);
    if !created {
      CleanIfClosed(old(kernel.host), kernel.host, cfg, faults, supported);
      return null, kind;
    }
    hide WithRoutes;
    var finished := d.FinishSetup(faults, endpoint);
    if !finished {
      d.FreedIsLeft(faults);
      d.Close(faults);
      CleanIfClosed(old(kernel.host), kernel.host, cfg, faults, supported);
      return null, kind;
    }
    assert {} + {cfg.address} == {cfg.address};
  }

  datatype Refresh = Refresh(faults: set<Call>, endpoint: string)

  /** A device from opening to closing, with any refreshes in between and
      whatever fails among them. `up` is the host just before the device is
      closed: still one peer, still exactly the routes added at the start; and
      closing leaves the host as before, without a link of that name. */
  method Lifetime(kernel: Kernel, cfg: Config, faults: set<Call>, supported: bool, endpoint: string,
                  refreshes: seq<Refresh>, closing: set<Call>)
    returns (ran: bool, up: Host)
    requires HostOk(kernel.host)
    modifies kernel
    ensures faults == {} ==> ran
    ensures ran ==>
              && cfg.interfaceName in up.links && |up.links[cfg.interfaceName].peers| == 1
              && up.routes == WithRoutes(WithoutLink(old(kernel.host), cfg.interfaceName).routes, cfg.interfaceName, cfg.Networks())
              && up.clients == old(kernel.host.clients) + 1
              && LeftBehind(WithoutLink(old(kernel.host), cfg.interfaceName), kernel.host, cfg.interfaceName, closing,
                            InUserspace(cfg, supported))
              && (!CloseFails(closing) ==> kernel.host == WithoutLink(old(kernel.host), cfg.interfaceName))
    ensures !ran ==> FailedOpen(old(kernel.host), kernel.host, cfg, faults, supported)
  {
    var d, _ := OpenDevice(kernel, cfg, faults, supported, endpoint);
    up := kernel.host;
    if d == null {
      return false, up;
    }
    ghost var before, isOpen := d.Released(), kernel.host;
    for i := 0 to |refreshes|
      invariant HostOk(kernel.host) && d.Released() == before
      invariant d.usDev == d.usUAPI == InUserspace(cfg, supported)
      invariant kernel.host.routes == isOpen.routes && kernel.host.clients == isOpen.clients
      invariant cfg.interfaceName in kernel.host.links && |kernel.host.links[cfg.interfaceName].peers| == 1
    {
      var _ := d.RefreshPeer(refreshes[i].faults, refreshes[i].endpoint);
      RoutesComplete(old(kernel.host), cfg, isOpen.routes, kernel.host.routes);
    }
    up := kernel.host;
    d.FreedIsLeft(closing);
    d.Close(closing);
    return true, up;
  }

  /** With all routes in place, adding a part of them changes nothing. */
  lemma RoutesComplete(h: Host, cfg: Config, routes: map<string, string>, after: map<string, string>)
    requires routes == WithRoutes(WithoutLink(h, cfg.interfaceName).routes, cfg.interfaceName, cfg.Networks())
    requires exists n :: 0 <= n <= |cfg.allowedIPs| && after == WithRoutes(routes, cfg.interfaceName, cfg.Networks()[..n])
    ensures after == routes
  {
    var n :| 0 <= n <= |cfg.allowedIPs| && after == WithRoutes(routes, cfg.interfaceName, cfg.Networks()[..n]);
    assert forall x :: x in cfg.Networks()[..n] ==> x in cfg.Networks();
  }
}
