# Tunnelo agent: verified model

The agent registers a host with a gateway, keeps a WireGuard tunnel up, relays
the connections that arrive through it, and reports heartbeats. This project
models the parts of it that hold state, race, or compute, and proves what those
parts are relied on for. `dafny verify dfyconfig.toml` checks everything.

External calls are nondeterministic: the network answers, loses, delays or
repeats messages; a process stops between any two steps; the kernel refuses any
call; the scheduler picks any goroutine; the clock moves on by any amount
between two reads.

| file | what it models | main results |
|---|---|---|
| `protocol.dfy` | the state directory, one agent process and its seat at the gateway, as a state machine over registration, saves, crashes and revocation | `CredentialsMatchKey`, `KeyChangesOnlyAtFreshStart`, `ReRegistrationKeepsPeer`, `NoTokenNeverRegisters`, `RestartsNeverRegister`, `RemovedUnlessReported`, `OverlappingTestsNeverMix` |
| `agent.dfy` | the code of `cmd/agent/main.go` on top of it: class `Host` keeps a ghost log, and its invariant says that the log is a run of the protocol, from any directory whatever | `Host.StartUp`, `RetriesUntil`, `NewStateIs`, `HostIsPaired`, `RestartFixedPoint`, `TotalRetryWaitIs` |
| `store.dfy` | the state file: temporary file, rename, crash at any effect | `CrashAtomic`, `AtomicIffSingleFlight` |
| `relay.dfy` | two copying goroutines on two sockets with half-close | `RunConserves`, `EofMeansComplete`, `RunProjects`, `RunsInterleave`, `EveryRunEnds`, `NeverCutIffTcp`, `RelayConn` |
| `forward.dfy` | binding, stepping aside, accepting | `StepAsideIsLegitimate` |
| `supervisor.dfy` | the tunnel manager as a timed machine: a legal trace is what the code can do, class `Manager` produces one | `RefreshedIffDue`, `RefreshesArePaced`, `CallSpacing`, `NoEarlyRefresh`, `StaleMeansRefreshed`, `OneDeviceAtATime`, `AttemptsAreApart`, `UpIsRecent`, `Manager.Run` |
| `heartbeat.dfy` | the heartbeat loop and what a report of "up" is worth | `Sender.Run`, `UpReportIsRecent` |
| `device.dfy` | setting the device up and releasing it while any call fails | `OpenDevice`, `Lifetime` |
| `config.dfy` | the service-list parser, with a printer as its partner | `ParseServices`, `PrintThenParse`, `ShorthandParses` |
| `wgquick.dfy` | the wg-quick printer, with a reader as its partner | `ReadUndoesRender`, `RenderTellsApart` |
| `services.dfy` | port comparison and the join of registered and configured services | `SamePorts`, `JoinedIsFilter`, `EverySpecRunsOnce` |
| `register.dfy`, `speedtest.dfy` | error classes, response defaults, migration; the counting reader | `StreamIsComplete` |
| `text.dfy`, `basics.dfy` | Go's string routines the above rests on, written out | `SplitUndoesJoinHostPort`, `JoinUndoesSplitHostPort` |

Where a property does not hold of the code as it stands, the project proves
when it does:

- After a revocation the state file stays removed until the next start if and
  only if the gateway had not accepted the report of a speed test that is still
  to be saved, answered or not (`RemovedUnlessReported`); `RemovedStateReturns`
  is a run where it comes back.
- Every schedule of saves leaves a state file that loads if and only if at most
  one save can be in progress (`AtomicIffSingleFlight`); the start-up speed
  test does not take part in the single flight. What overlapping tests leave
  behind is torn or whole, never a mixture (`OverlappingTestsNeverMix`).
- A failed set-up leaves nothing behind, but for the resources whose own
  clean-up call failed, and for an open UAPI file if and only if listening on it
  is what failed (`StartUserspace`, `OpenDevice`).
- Refresh calls begin 30 seconds apart less the time between a stamp and its
  call, and no better bound holds; the stamps themselves are 30 seconds apart
  (`CallSpacing`, `RefreshesArePaced`).
- A registration is never repeated by later starts with the same list if and
  only if the gateway echoed the requested ports (`RestartFixedPoint`).
- A service's URL carries the port as written, so `080` is accepted as port 80
  with a URL that says `080` (`UrlIsCanonical`, `PaddedPortInUrl`).
- One direction of a relay can be cut off by the other's end exactly when one
  of the two sockets cannot half-close (`NeverCutIffTcp`); the agent's sockets
  are TCP.
- A list of allowed addresses survives the wg-quick file exactly when no item
  holds a comma or surrounding blanks and the list is not one empty item
  (`ReadUndoesRender`).

Where code and documentation differ, the model follows the code: README.md and
the flag help say that a bare port inherits the *first* host, the parser uses
the *most recent* one (`BarePortInherits`); docs/API.md shows a single
`service` block in the registration request, the code sends one entry per
service (only the ports matter here).

## Model

| member | source | states |
|---|---|---|
| `Protocol.DecisionIs` | cmd/agent/main.go:87-114 | the start-up decision case by case: no file, torn file, kept without a token or with the same ports, registered again with its own key, a generated key only where none is stored, refused with an unusable one |
| `Protocol.LegacyDecisionIs` | internal/register/state.go:64-73 | a state file from before the services list decides as one listing its subdomain at its service port, or 8096 without one |
| `Protocol.RegistrationTakesOver` | docs/API.md:133-135 | an accepted registration's secret becomes the one active secret, its key the one peer, and every earlier state is dead |
| `Protocol.StepKeepsInv` | cmd/agent/main.go:235-284 | every step of start, send, accept, loss, retry, save effect, crash, revocation and removal keeps the invariant tying disk, process and gateway together |
| `Protocol.Beginnings` | internal/register/state.go:64-73 | a new host and a host upgraded from before multi-service are both consistent beginnings, so the results below cover both |
| `Protocol.RunKeepsInv` | cmd/agent/main.go:84-114 | the invariant holds in every state reachable from a state that has it, over any interleaving |
| `Protocol.ReceivedIsIssued` | cmd/agent/main.go:262-277 | the state built from a response answers a request made with the process's own key, however many earlier attempts are still in flight |
| `Protocol.CredentialsMatchKey` | docs/API.md:133-135 | in every state reachable from a consistent one, upgraded hosts included, the state file loads, comes whole from one registration made with its own key, and if its secret is the active one the gateway's peer is its key |
| `Protocol.KeyChangesOnlyAtFreshStart` | cmd/agent/main.go:103-110 | over any run the private key on disk changes only through a start that found no state |
| `Protocol.ReRegistrationKeepsPeer` | cmd/agent/main.go:231-235 | without such a start, and with only this host's key on the wire, the seat's peer stays that key or the seat is revoked, whatever is re-registered, retried or delivered late |
| `Protocol.NoTokenNeverRegisters` | cmd/agent/main.go:235-238 | a host that is never given a token puts no registration request on the wire |
| `Protocol.NoTokenKeepsRunning` | cmd/agent/main.go:96-102 | at the end of any run a host with a state file starts without a token, whatever is configured, and runs with that state |
| `Protocol.StepKeepsSettled` | cmd/agent/main.go:103-114 | a start with the registered ports, a save, a test or a crash keeps the registration on disk and sends nothing |
| `Protocol.RestartsNeverRegister` | cmd/agent/main.go:87-114 | over any run of restarts, crashes and saves with these ports that keeps the state file, upgraded files included, no registration is sent if and only if the state covers the ports |
| `Protocol.UpgradeNeverRegisters` | internal/register/state.go:64-73 | no run of restarts configured for the registered service port, or 8096 without one, makes an upgraded host register again |
| `Protocol.RemovedUnlessReported` | cmd/agent/main.go:182-187 | after the removal the state file stays gone until the next start if and only if no accepted speed-test report is still to be saved |
| `Protocol.SaveComesBack` | cmd/agent/main.go:473-476 | a test whose report was accepted, its answer here or on its way, brings the removed registration back by its save |
| `Protocol.RemovedStateReturns` | cmd/agent/main.go:180-196 | such a run exists from an upgraded host: revoked while an accepted report is unanswered, it loses its state file and gets it back |
| `Protocol.OverlappingTestsNeverMix` | cmd/agent/main.go:168-196 | any schedule of overlapping speed-test saves of a running state leaves a state file that does not load or one whose credentials and key belong together |
| `Agent.Host.PostRegistration` | internal/register/register.go:137-171 | one attempt: which outcomes are a response, an API error or another error, and what the gateway has done in each case, an acceptance behind a proxy's error included; a new registration leaves its secret active and the process's key as the peer |
| `Agent.RetriesUntil` | internal/register/register.go:93-103 | on the outcomes themselves: lost answers, incomplete ones and errors of status 500 and up or 429 without a credential code are retried; a complete answer is granted, and invalid_token, invalid_agent or any other status is final |
| `Agent.Host.RegisterWithRetry` | cmd/agent/main.go:304-332 | returns at the first decisive outcome of any outcome sequence, incomplete answers repeated at will included, with its verdict, or cancelled; the k-th wait is the closed form |
| `Agent.TotalRetryWaitIs` | cmd/agent/main.go:306-330 | n waits add up to 2^(n+1) - 2 seconds for n <= 5 and 62 + 60(n - 5) beyond |
| `Agent.Host.RegisterAgent` | cmd/agent/main.go:235-284 | succeeds exactly with a token, a usable key, a granted registration and a completed save; the state returned is the one on disk, active at the gateway with its key as the peer; a failure changes the state file only by a crash right after the commit |
| `Agent.NewStateIs` | cmd/agent/main.go:267-277 | the stored state field by field from the granted response: ids, secret, subdomain, key, tunnel configuration, ports, interval, speed test, and every service in order |
| `Agent.Host.ChooseState` | cmd/agent/main.go:87-114 | for every directory, torn, legacy and bad-key state files included, the start-up switch does what `Decide` says: existing state untouched, registration, or refusal without any effect |
| `Agent.Host.StartUp` | cmd/agent/main.go:84-119 | for every directory, start-up succeeds exactly when the file is readable and a state is available that shares a port with the configuration, and runs the join of the two; a failed one leaves the state file as it was or holding the new registration |
| `Agent.Host.ReportSpeedtest` | cmd/agent/main.go:461-472 | an accepted report leaves its answer to come, a failed one leaves everything as it was |
| `Agent.Host.SaveAfterSpeedtest` | cmd/agent/main.go:473-476 | running or already stopping: the state file afterwards is the old one or the process's state marked done, never anything else; a failed save leaves the process as it was |
| `Agent.Host.OnRevoked` | cmd/agent/main.go:180-190 | the state file is gone unless removing it failed, and the agent stops |
| `Agent.HostIsPaired` | cmd/agent/main.go:267-280 | whatever this code has done from a consistent beginning, the directory it leaves holds no torn state and no credentials of another key |
| `Agent.RestartFixedPoint` | cmd/agent/main.go:87-119 | after a registration no run of later starts with the same list sends another one, if and only if the gateway echoed the ports; then each of those starts uses the state on disk and runs every configured service exactly once |
| `StateStore.SavedUpToIs` | internal/register/state.go:78-94 | what is on disk after each effect of a save; only the rename touches the state file |
| `StateStore.CrashAtomic` | internal/register/state.go:52-94 | over any sequence of saves cut off anywhere, with stale temporary files around, loading gives exactly the last committed state, migrated |
| `StateStore.StateDir.LoadState` | internal/register/state.go:52-75 | unreadable, missing, unparsable and whole files, with the migration of old documents |
| `StateStore.StateDir.Save` | internal/register/state.go:78-94 | performs a prefix of its effects; success means all of them, an error leaves the state file untouched |
| `StateStore.StateDir.Remove` | internal/register/state.go:98-104 | a missing file is success, a failed removal changes nothing |
| `StateStore.SerialSavesNeverTear` | internal/register/state.go:86-92 | no schedule of saves that never start inside one another leaves a torn state file, whatever fails |
| `StateStore.AtomicIffSingleFlight` | cmd/agent/main.go:192-196 | from any clean directory every schedule of saves by n writers leaves a state file that loads if and only if n is at most one |
| `StateStore.OverlapNeverMixes` | internal/register/state.go:87-92 | overlapping saves of one document leave the state file as before, torn, or that whole document |
| `StateStore.OverlappingSavesTear` | internal/register/state.go:87-92 | wherever a save starts while another is about to rename, that rename leaves a state file that does not load |
| `Register.ParseErrorBody` | internal/register/register.go:108-119 | a body without a usable error envelope is never fatal; retryability depends on the status alone |
| `Register.Validate` | internal/register/register.go:173-195 | rejects exactly the incomplete responses, replaces a missing interval by 60 and a missing MTU by 1280, and touches nothing else |
| `Register.ValidateIdempotent` | internal/register/register.go:188-193 | validating a validated response changes nothing |
| `Register.ServiceStates` | cmd/agent/main.go:337-346 | one state per assigned service in order, or the one primary service |
| `Register.State.Ports` | internal/register/state.go:40-46 | the ports of the services, in order |
| `Register.MigrateOnce` | internal/register/state.go:64-73 | migration is idempotent, touches nothing but the services, and leaves a state alone exactly when it has services or no subdomain |
| `Services.SamePorts` | cmd/agent/main.go:362-379 | the counting map decides multiset equality, for all sequences with duplicates |
| `Services.SpecPorts` | cmd/agent/main.go:382-388 | the ports of the configured services, in order |
| `Services.BuildServices` | cmd/agent/main.go:205-229 | fails exactly when no registered port is configured, else returns the join |
| `Services.LastSpecWins` | cmd/agent/main.go:206-209 | of several specs for a port the last one is joined |
| `Services.JoinedIsFilter` | cmd/agent/main.go:211-224 | the join is the order-preserving selection of registered services, each with its own name and a spec of its own port |
| `Services.KeptComplete` | cmd/agent/main.go:212-217 | a registered service is selected if and only if its port is configured |
| `Services.EverySpecRunsOnce` | cmd/agent/main.go:203-229 | when the registration covers the configured ports once each, every spec runs exactly once |
| `Relay.RunConserves` | internal/tunnel/forward.go:105-109 | for every interleaving and chunking, delivered, in-flight and unread bytes are the source's stream, in order |
| `Relay.RunKeepsOrder` | internal/tunnel/forward.go:92-129 | over TCP a write side is shut only after its own copy has ended, and no socket is closed before both pipes are done |
| `Relay.EofMeansComplete` | internal/tunnel/forward.go:119-129 | an end that sees EOF has received the other end's whole stream, unless an error struck that very direction |
| `Relay.DirectionsIndependent` | internal/tunnel/forward.go:107-108 | over TCP a step of one direction is possible exactly when its own pipe allows it, and leaves the other pipe alone |
| `Relay.RunProjects` | internal/tunnel/forward.go:121-129 | the outcome of a direction is the outcome of its own steps, whatever the other one does |
| `Relay.RunsInterleave` | internal/tunnel/forward.go:105-109 | conversely, over TCP whatever each direction can do alone the two can do together, in any interleaving |
| `Relay.NeverCutIffTcp` | internal/tunnel/forward.go:124-128 | the end of one stream can never cut the other direction off if and only if both sockets are TCP |
| `Relay.StepDecreases` | internal/tunnel/forward.go:92-110 | every step lowers a measure over unread and in-flight bytes, live pipes and open sockets |
| `Relay.EveryRunEnds` | internal/tunnel/forward.go:105-110 | no run is longer than that measure, and one that cannot go on has both sockets closed |
| `Relay.PipeStep` | internal/tunnel/forward.go:121-129 | each step of the goroutine is a step of the pipe machine and closes only what it should |
| `Relay.RelayConn` | internal/tunnel/forward.go:92-110 | under any scheduling the relay ends, closes both sockets and has delivered a prefix of each stream, all of it unless an I/O error struck; a failed dial touches nothing but the accepted socket |
| `Forward.Forwarder.Bind` | internal/tunnel/forward.go:77-90 | returns the first answer that is success or address-in-use, two seconds per retry |
| `Forward.Forwarder.Run` | internal/tunnel/forward.go:37-72 | address-in-use is stepping aside for the same port and a refusal otherwise; exactly the connections before the first accept error are relayed |
| `Forward.SamePortOfJoined` | internal/tunnel/forward.go:113-117 | joined addresses have the same port exactly when their port texts agree |
| `Forward.StepAsideIsLegitimate` | cmd/agent/main.go:140-150 | for every list that parses, the forwarder built for a service listens on the tunnel address, dials the service's own host, both on its port, and cannot meet the port-mismatch refusal |
| `Supervisor.RefreshedIffDue` | internal/tunnel/tunnel.go:179-188 | a poll refreshes the peer if and only if there was no handshake for 180 seconds, the device is older than 180 seconds, and its last refresh, if any, is at least 30 seconds old |
| `Supervisor.PollBelongs` | internal/tunnel/tunnel.go:151-153 | those ages are measured from the start of the device's own supervision and from its own latest refresh |
| `Supervisor.RefreshesArePaced` | internal/tunnel/tunnel.go:180-182 | the limiter's stamps, and each call after the stamp before it, are at least 30 seconds apart over a whole run, across device recreations that reset the limiter |
| `Supervisor.CallSpacing` | internal/tunnel/tunnel.go:180-183 | with calls beginning at most d after their stamps, g seconds between any two calls are guaranteed over all runs if and only if g is at most 30 seconds less d (nothing when d is larger) |
| `Supervisor.NoEarlyRefresh` | internal/tunnel/tunnel.go:180-181 | none falls into a device's first three minutes or while its handshake is younger than three minutes |
| `Supervisor.StaleIsRefreshed` | internal/tunnel/tunnel.go:180-188 | when a stale poll reads the age of the last refresh, the device was refreshed less than 30 seconds before or is refreshed there and then, whatever the clock does between its reads |
| `Supervisor.StaleMeansRefreshed` | internal/tunnel/tunnel.go:147-190 | under continuous staleness, with each poll at most d after the one before (from that one's refresh-age read to this one's last read), consecutive refreshes are less than 30 seconds plus d apart |
| `Supervisor.StaleKeepsRefreshing` | internal/tunnel/tunnel.go:155-189 | two stale polls of one stretch, 30 seconds from the first one's last read to the second one's refresh-age read, have a refresh after the first, up to and including the second |
| `Supervisor.OneDeviceAtATime` | internal/tunnel/tunnel.go:109-139 | at any point of a run at most one device is open, and every opened one is closed exactly once before the next attempt |
| `Supervisor.AttemptsAreApart` | internal/tunnel/tunnel.go:110-128 | attempts are apart by the backoff after a failure and by a check interval after a device that opened |
| `Supervisor.TotalBackoffIs` | internal/tunnel/tunnel.go:108-121 | n failures in a row wait 2^n - 1 seconds for n <= 6 and 63 + 60(n - 6) beyond |
| `Supervisor.FailuresIsStreak` | internal/tunnel/tunnel.go:111-124 | the failure count is exactly the attempts failed in a row since the start or the last device |
| `Supervisor.RetryTimer` | internal/tunnel/tunnel.go:116-121 | after k earlier failures in a row the retry timer is set to the failure plus min(2^k, 60) seconds |
| `Supervisor.RetryIsDelayed` | internal/tunnel/tunnel.go:108-121 | in every run an attempt after n failures in a row begins at least that total after the first of them |
| `Supervisor.UpIsRecent` | internal/tunnel/tunnel.go:162-169 | a published "up" stems from a poll of the device that is open or just closing, with a handshake younger than three minutes at that poll |
| `Supervisor.Manager.IsUp` | internal/tunnel/tunnel.go:194-196 | up exactly with a handshake strictly younger than three minutes at the clock read |
| `Supervisor.Manager.Check` | internal/tunnel/tunnel.go:162-188 | one pass of the loop publishes the reading with its freshness, refreshes exactly when the ages of handshake, device and last refresh call for it, and extends the legal trace by that poll |
| `Supervisor.Manager.Supervise` | internal/tunnel/tunnel.go:147-190 | polls every reading in order until the device is lost or the context ends |
| `Supervisor.MarksOfIs` | internal/tunnel/tunnel.go:110-128 | an opening is one attempt, then every reading in order, then how the device ended |
| `Supervisor.Manager.Run` | internal/tunnel/tunnel.go:107-140 | plays the openings in order, on after failed attempts and lost devices, up to the one during which the context ends; its trace is legal, and afterwards all devices are closed and the tunnel is published as down |
| `Heartbeat.IntervalIsLatest` | internal/heartbeat/heartbeat.go:150-153 | the interval is the last positive one the gateway advertised |
| `Heartbeat.IntervalIsInitial` | internal/heartbeat/heartbeat.go:87-92 | until then it is the configured interval, or a minute when that is not positive |
| `Heartbeat.Sender.Beat` | internal/heartbeat/heartbeat.go:116-159 | only an accepted reply changes the interval or asks for a speed test |
| `Heartbeat.Sender.Run` | internal/heartbeat/heartbeat.go:86-112 | goes on through every transient failure and ends at exactly the first error with code invalid_token or invalid_agent; every wait is the latest interval |
| `Heartbeat.ReportOf` | internal/heartbeat/heartbeat.go:161-171 | the report carries the published up flag and byte counts and the handshake's whole seconds, 0 without one |
| `Heartbeat.UpReportIsRecent` | internal/heartbeat/heartbeat.go:161-171 | a report of "up" is backed by a poll whose handshake was younger than three minutes, so it is younger now than that plus the poll's age |
| `Device.LinuxDevice.StartUserspace` | internal/tunnel/tunnel_linux.go:79-118 | an error leaves the host as it was, but for one open UAPI file exactly when listening failed and one listener exactly when it could not be closed again; success adds one TUN link and one listener |
| `Device.LinuxDevice.Configure` | internal/tunnel/tunnel_linux.go:182-223 | on success the link has exactly one peer, with the configured key, the resolved endpoint, every allowed network in order and a keepalive of 25 seconds unless configured; on an error nothing changed |
| `Device.RoutesAre` | internal/tunnel/tunnel_linux.go:163-176 | a network has a route afterwards if it had one, unchanged, or is an allowed one, then through this link |
| `Device.LinuxDevice.EnsureRoutes` | internal/tunnel/tunnel_linux.go:158-178 | adds only missing routes through this link, all of them unless a call fails |
| `Device.LinuxDevice.FinishSetup` | internal/tunnel/tunnel_linux.go:122-151 | whatever fails, nothing but this device's own link, routes and client is touched |
| `Device.LinuxDevice.RefreshPeer` | internal/tunnel/tunnel_linux.go:225-230 | leaves exactly one peer and adds nothing but the device's missing routes |
| `Device.LinuxDevice.Close` | internal/tunnel/tunnel_linux.go:246-260 | every clean-up call is made whichever of them fail, so each failure leaves just its own resource, and without one everything the device holds is released and nothing else |
| `Device.OpenDevice` | internal/tunnel/tunnel_linux.go:38-75 | for every choice of failing calls an error leaves nothing behind but what failing clean-up calls and a UAPI file that could not be listened on account for; success leaves exactly the configured device in the right mode |
| `Device.Lifetime` | internal/tunnel/tunnel_linux.go:122-260 | from opening through any refreshes to closing: one peer and exactly the initial routes throughout, and afterwards nothing but what a failing clean-up call leaves |
| `Config.IsAllDigits` | internal/config/config.go:203-213 | true exactly of non-empty digit strings |
| `Config.ParseServices` | internal/config/config.go:137-180 | accepts exactly the lists with a non-blank token whose non-blank tokens all name a port in range, distinct, with a host of their own or a non-empty inherited one; one spec per such token in order; else the first token's error |
| `Config.EntryOkIff` | internal/config/config.go:148-161 | on the text of the entries: one is fine exactly when it is host:port, or digits after an entry with a non-empty host, and its port is a number from 1 to 65535 |
| `Config.RefusedMeans` | internal/config/config.go:151-166 | what each error says of an entry of the list |
| `Config.BlankTokensSkipped` | internal/config/config.go:142-146 | a blank token changes nothing wherever it stands, and a visible one counts for its trimmed text |
| `Config.BarePortInherits` | internal/config/config.go:148-154 | a bare port takes the host of the nearest earlier host:port entry, which is not empty |
| `Config.PrintThenParse` | internal/config/config.go:137-180 | printing specs as host:port entries and parsing gives them back if and only if they are in the parser's own form with plain hosts |
| `Config.ShorthandParses` | internal/config/config.go:134-136 | dropping a non-empty host equal to the one before it parses to the same list |
| `Config.ParsedHost` | internal/config/config.go:148-149 | a host read from a list holds no comma and no bracket |
| `Config.UrlIsCanonical` | internal/config/config.go:168-174 | the URL carries the canonical port exactly when the port was written canonically |
| `Config.PaddedPortInUrl` | internal/config/config.go:172 | for every plain host, `080` is accepted as 80 and stays `080` in the URL |
| `Text.AtoiReads` | internal/config/config.go:158 | decimal positions, a sign, leading zeros; nothing without a digit or with another character |
| `Text.SplitUndoesJoinHostPort` | internal/config/config.go:171-172 | splitting undoes joining exactly for parts without brackets and ports without a colon |
| `Text.JoinUndoesSplitHostPort` | internal/config/config.go:148-149 | joining undoes splitting except for a needlessly bracketed host |
| `WgQuick.WgQuickConfig` | internal/register/wgquick.go:22-45 | the file is the title, the two sections and their entries, one line each, MTU and keepalive only when positive; for one-line fields it reads back as what it should say exactly when the list is listable |
| `WgQuick.FileSays` | internal/register/wgquick.go:24-43 | the file line by line, the routing comment's address and port and every wg-quick entry name included |
| `WgQuick.KeyIsOneLine` | internal/register/wgquick.go:31 | a private key's text fits on a line |
| `WgQuick.ListSurvives` | internal/register/wgquick.go:40 | the allowed addresses are read back from their comma-separated form exactly when they are listable |
| `WgQuick.BothSections` | internal/register/wgquick.go:30-43 | the reader finds each section's lines and no others |
| `WgQuick.ReadUndoesRender` | internal/register/wgquick.go:22-45 | for one-line fields a reader recovers address, keys, endpoint, list, MTU and keepalive if and only if the list is listable |
| `WgQuick.RenderTellsApart` | internal/register/wgquick.go:22-45 | states that differ in those fields render differently |
| `Speedtest.CountingReader.Read` | internal/speedtest/speedtest.go:66-81 | fills the front of the buffer from the chunk and nothing else; sent and remaining move by exactly that much |
| `Speedtest.CountingReader.Serve` | internal/speedtest/speedtest.go:60-81 | reads with any buffer sizes serve the stream of chunk prefixes, and the counts add up |
| `Speedtest.StreamIsComplete` | internal/speedtest/speedtest.go:66-81 | never more than the size, and with non-empty buffers every read makes progress until all of it is served |
| `Speedtest.CountingReader.Drain` | internal/speedtest/speedtest.go:100 | an upload that reads to the end sends exactly the size |

## Left out

- HTTP, JSON and TLS: requests end in one of the outcomes listed in `agent.dfy` and `heartbeat.dfy`; a torn JSON object is taken never to parse.
- internal/detect and the health entries of a heartbeat: two probes and a default.
- specFromURL: it rests on Go's URL library, and does not check the port's range; results about specs are about lists.
- Flags, environment, logging, install scripts and container files.
- Real netlink, wgctrl, wireguard-go and cryptography: links, routes and peers are a map, the public key is an injective function, a generated key is a parameter, and stored keys are taken to be in the form that printing gives.
- Power loss: there is no fsync, so crashes are crashes of the process.
- Several agents on one state directory.
- Protocol.CredentialsMatchKey: its runs hold one speed test at a time, though the start-up test does not take the single-flight flag; overlapping tests are `Protocol.OverlappingTestsNeverMix`, where the other steps do not interleave with the saves.
- Agent.Host.RegisterWithRetry: an earlier attempt that the gateway accepts only after a later one was sent is a step of the protocol, not one of this loop's outcomes.
- speedtestRunning itself and the goroutine that a dashboard request starts.
- Relay.RelayConn: the interleaving is at the granularity of one read, write or close, with buffering inside the kernel folded into "unread" and "delivered"; cancelling the agent does not end a relay in flight, and nothing is claimed about that.
- Device.OpenDevice: a listener is taken to own the UAPI file it was made from, and closing the userspace device to remove its link.
- Device.LinuxDevice.FinishSetup: with an MTU of 0 the link keeps the kernel's default, which the model writes as 0.
- writeWgQuickConfig's check for an existing file, and buildTunnel's choice of MTU.
- Text.Atoi: the 64-bit overflow error, since its one modelled caller rejects everything above 65535 in the same way.
- Strings are sequences of characters: no byte encoding, no invalid UTF-8.
- measure's deadline, status check and floating-point rate.
