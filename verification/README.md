# Detour agent: verified model of the control plane

The agent keeps one container's traffic on the road *application → SOCKS5 → ExpressVPN → uplink*. This project models
its control plane and the data handling around it, and proves what the agent is meant to keep over whole runs.

* `Daemon`, `XvpnManager` — the ExpressVPN daemon as a transition system whose commands return before their effect, and
  the driver that turns it into "nil means a new session".
* `UplinkDriver`, `UplinkManager` — routes, resolv.conf, the engine process and the generation-tagged UDP probe: as
  functions on values with their run lemmas, and as the class with mutable fields, proved to compute those functions.
* `ControlLoop`, `LoopSafety`, `LoopUplink`, `LoopUdp`, `LoopPass`, `PassOutcome`, `Reconciler` — the control loop. `ControlLoop` cuts a pass into
  the sections between which start-up, polls, crashes, user actions, configuration changes, probes and the clock may intervene;
  the `Loop` modules prove properties of every interleaving, `PassOutcome` what one whole pass achieves; `Reconciler` is the object with its mutable memory,
  whose `Reconcile` is proved to be a run of that transition system from Idle to Idle.
* `StateStore` — the capacity-1 publish/subscribe store, its small-step interleavings, and the waiter that relies on it.
* `JsonPatch`, `Config`, `ConfigStore` — merge patch and diff, encoding and redaction, and the store's persistence.
* `Logs`, `Sessions` — the redactor and the ring; the login throttle and the two marker files.
* `Socks`, `UdpHeader`, `UdpRelay` — addresses, the UDP header and the relay's flow table.
* `SocksDialog`, `SocksPeers` — the SOCKS5 server against the self-check's client: as functions on byte streams with the
  lemmas about both together, and as the two ends reading and writing a connection.

Commands, sockets, the clock and the network are parameters: each driver call is answered by an arbitrary value, so a
lemma about all runs covers all answers. Times are milliseconds, and relay times seconds; a clock never goes back.

A dialog is any pair of byte streams that satisfies the equations of both ends. The ends are deterministic readers, so
every interleaving and chunking of a finished dialog gives such a pair.

## Where the code falls short of the plain claim

Each line names the lemma with a failing run or input, and the one that says exactly when it fails.

| plain claim | fails | exactly when |
|---|---|---|
| an uplink that is configured works after the next pass | `LoopPass.RevertSkipsTornDownUplinkInARun`, `LoopPass.DeadEngineStaysDead` | `LoopUplink.UplinkWorksIff` |
| a wanted connection is attempted | `LoopPass.StartUpCanStrand` | `LoopPass.StrandedUntilRescued`, for how such a world is left |
| the kill switch shows active when its rules are in place | `LoopPass.RevertLeavesKillswitchInactiveInARun` | `LoopSafety.ActiveIsLastOutcome` |
| the gate is shut for the whole of every switch | `LoopUplink.SwitchesCanBeOpen` | `LoopUplink.GateOpensInSwitchIff`, `LoopUplink.ConnectedIsEarlyIff` |
| a failed Apply leaves no route behind | `UplinkDriver.LeaksIffFailedAfterResolving` | the same |
| a subscriber ends with the newest snapshot | `StateStore.OverlapCanLoseTheNewest` | `StateStore.CurrentIffNewestWasPutLast`, `StateStore.CurrentIffNewestPutsForGood` |
| sending back a redacted configuration reports no key | `Config.SentBackDiff` | the same |
| no registered secret is left in a log line | `Logs.StarsCanReassembleASecret` | `Logs.NeverLeftIffTame` |
| at most five wrong passwords are evaluated in 30 s | `Sessions.BoundIsReached` | `Sessions.WindowIsBounded`: the bound for m overlapping callers, which is reached for every m |
| Disable leaves the volume disabled | `Sessions.DisableIsUndoneIff` | the same |
| a reply goes to the client that asked | `UdpRelay.SharedTargetMayAnswerEither` | `UdpRelay.ReplyIsCertainIffOneFlowKnows` |
| agreeing credentials log in | `SocksDialog.LongCredentialsNeverLogIn` | with `SocksDialog.DialogSucceedsIff`: exactly when one is longer than 255 bytes, for a target the server can connect to |

## Model

| member | source | states |
|---|---|---|
| `Daemon.ConnectIsNewIffNotNoop` | image/agent/internal/xvpn/testdata/NOTES.md:61-77 | After an accepted `connect`, every later observed Connected is a session newer than the command if and only if the command was not a no-op on a session the daemon believed alive. |
| `Daemon.DisconnectedStays` | image/agent/internal/xvpn/fakedaemon_test.go:130-154 | The daemon leaves Disconnected only by a command: an observed Disconnected still holds at the next command, however late. |
| `Daemon.DriftKeepsNewer` | image/agent/internal/xvpn/fakedaemon_test.go:130-154 | From a state on its way to a newer session, whatever drops and transitions follow, an observed Connected has a session number above the mark, the location and the pending protocol. |
| `Daemon.ShownAs` | image/agent/internal/xvpn/parse.go:17-31 | Only Connected is shown as connected, only a daemon at rest or on its way there as disconnected, and none as an error. |
| `AgentState.CliNameIsFaithful` | image/agent/internal/xvpn/parse.go:98-126 | The command line name issued for a known protocol is the one that stands for it, and needs UDP if and only if the protocol does. |
| `AgentState.ApiNameIsFaithful` | image/agent/internal/xvpn/parse.go:98-126 | Conversely every command line name is issued for the protocol it stands for. |
| `AgentState.EffectiveMeans` | image/agent/internal/xvpn/protocol.go:17-35 | The protocol handed over is the requested one unless that needs UDP which a socks5 uplink is not known to carry; then it is one that needs none, and the reason says what is known. |
| `XvpnManager.Manager.Connect` | image/agent/internal/xvpn/manager.go:64-117 | `connect` and `set protocol` are executed in exactly Disconnected and with the requested settings; at most three `connect`s, spaced by a doubling delay, all three spent before connect_failed; nil only for a session that existed neither at entry nor at the last `connect`, with the requested location and protocol; any other error is the last command's own answer, a disconnect that timed out or the cancellation, no `connect` is retried after an answer that no retry mends, and short of three every other one is, unless cancelled. |
| `XvpnManager.Manager.OneAttempt` | image/agent/internal/xvpn/manager.go:67-103 | One attempt issues at most one `connect`, from Disconnected; it is established only by a polled new session with the requested settings, and gives up only with the error of a failed preparation or of a `connect` that no retry mends. |
| `XvpnManager.Manager.OpenSession` | image/agent/internal/xvpn/manager.go:81-103 | From Disconnected, one `connect` and a wait that ends in Connected, a deadline or cancellation. |
| `XvpnManager.Manager.EnsureDisconnected` | image/agent/internal/xvpn/manager.go:141-150 | On nil the daemon is in exactly Disconnected; a daemon that answers Disconnected is left alone, and any other is told to disconnect. |
| `XvpnManager.Manager.DisconnectAndWait` | image/agent/internal/xvpn/manager.go:153-163 | On nil the daemon is in exactly Disconnected, although `disconnect` itself returns while still Disconnecting. |
| `XvpnManager.Manager.WaitConnected` | image/agent/internal/xvpn/manager.go:120-138 | nil only at a poll that saw Connected; a failure only when the last poll did not, after the deadline or on cancellation; polling terminates. |
| `XvpnManager.Manager.WaitDisconnected` | image/agent/internal/xvpn/manager.go:166-185 | nil only in exactly Disconnected; a failure only when the last poll saw something else, after the deadline or on cancellation; polling terminates. |
| `XvpnManager.PacedStep` | image/agent/internal/xvpn/manager.go:65-113 | One more `connect` after the current delay keeps the at-most-three, doubling-delay shape of a call. |
| `UplinkDriver.OriginalsComeBack` | image/agent/internal/uplink/manager.go:77-165 | Over any run of Applies in which any step but writing resolv.conf may fail, engine deaths included, whenever the uplink is not socks5 the default routes and resolv.conf are the originals; with no failed Apply the whole table is; in socks5 the default goes to the TUN peer or nowhere, and the fallback, the proxy route and the saved resolv.conf are kept. |
| `UplinkDriver.TeardownRestores` | image/agent/internal/uplink/manager.go:253-270 | Teardown from an applied socks5 uplink puts back the original networks and resolv.conf, and the whole table when no foreign host route is left. |
| `UplinkDriver.ApplySound` | image/agent/internal/uplink/manager.go:77-165 | Every Apply, whichever of its other steps fails, keeps the restorable shape; a successful one keeps the table free of leftovers. |
| `UplinkDriver.ApplySocks5Sound` | image/agent/internal/uplink/manager.go:90-159 | The socks5 branch, from a torn-down driver, ends diverted with everything needed to return, or restored. |
| `UplinkDriver.DivertedByApplyRoutes` | image/agent/internal/uplink/routes.go:66-78 | The three route commands set the proxy exception, the metric-1000 fallback and the TUN default and touch nothing else. |
| `UplinkDriver.RoutesAreTakenBack` | image/agent/internal/uplink/manager.go:133-136 | When a route command fails, nothing of the new proxy is left and nothing else has changed. |
| `UplinkDriver.EngineDiesSound` | image/agent/internal/uplink/manager.go:226-250 | The engine dying at any time, with or without the kernel dropping its routes, keeps the restorable shape. |
| `UplinkDriver.LeaksIffFailedAfterResolving` | image/agent/internal/uplink/manager.go:99-136 | An Apply leaves a stray proxy host route behind if and only if it set it and failed before the other routes. |
| `UplinkDriver.ApplyAnswers` | image/agent/internal/uplink/manager.go:77-187 | In every restorable container: host is always up; a socks5 uplink that is applied with a live engine is only asked whether its proxy answers; any other is rebuilt with a running engine if and only if every step succeeds, and else is down for the reason of the first that failed. |
| `UplinkDriver.NoGatewayIsReported` | image/agent/internal/uplink/routes.go:31-48 | Without any default route a socks5 uplink is down for the missing gateway and nothing is touched. |
| `UplinkDriver.AwaitedUdpMeans` | image/agent/internal/uplink/manager.go:318-338 | At once the constants; for a probed uplink the published value once the probe is done, and unknown on timeout. |
| `UplinkManager.Manager.Apply` | image/agent/internal/uplink/manager.go:77-165 | The driver in place does what the restoration lemmas are about: routes, resolv.conf, engine, memory and the published udpSupported, branch by branch. |
| `UplinkManager.Manager.Divert` | image/agent/internal/uplink/manager.go:133-159 | Routes, resolv.conf and the UDP verdict once the engine runs; a failing route command tears everything down. |
| `UplinkManager.Manager.TeardownLocked` | image/agent/internal/uplink/manager.go:253-270 | Stops the engine, restores resolv.conf and routes, and forgets the applied uplink and its probe. |
| `UplinkManager.Manager.RouteThroughProxy` | image/agent/internal/uplink/routes.go:66-78 | Stops at the first failing route command; the table is that of the commands that succeeded. |
| `UplinkManager.Manager.RestoreRoutes` | image/agent/internal/uplink/routes.go:81-91 | Puts the gateway back and deletes exactly the fallback and the proxy exception. |
| `Reconciler.Reconciler.ProbeFinishes` | image/agent/internal/uplink/manager.go:293-313 | A finished probe changes the object as the probe event changes the transition system: recorded always, published if and only if it is still the current one and the shown mode is socks5. |
| `UplinkManager.Manager.WaitUDP` | image/agent/internal/uplink/manager.go:318-338 | Constants for no uplink, host, on and off; otherwise the published value once the current probe is done, unknown on timeout. |
| `LoopSafety.KillswitchComesFirst` | image/agent/internal/reconciler/reconciler.go:162-193 | In every run, while a pass that read c is in the uplink Apply or in the driver connect, the most recent successful kill switch Apply had argument c.uplink. |
| `LoopSafety.ActiveMeansApplied` | image/agent/internal/reconciler/reconciler.go:162-171 | A pass that ends showing the kill switch active has applied it for the configuration it read. |
| `LoopSafety.ActiveIsLastOutcome` | image/agent/internal/reconciler/reconciler.go:162-171 | In every run Active is shown if and only if the answer to the latest call of the kill switch driver was success; past the kill switch stage the rules in place are those of the configuration read, whatever Active shows. |
| `LoopPass.RevertLeavesKillswitchInactive` | image/agent/internal/reconciler/reconciler.go:162-171 | The converse of ActiveMeansApplied is false: after a successful pass, a failed kill switch Apply for another configuration and a revert, the next whole pass ends with the right rules in place and Active false, and nothing left for later passes to do. |
| `LoopPass.RevertLeavesKillswitchInactiveInARun` | image/agent/internal/reconciler/reconciler.go:162-171 | The same as a run from the start. |
| `LoopSafety.AttemptsAreBoundedAndPaced` | image/agent/internal/reconciler/reconciler.go:229-249 | Between resets at most 10 unforced connects, and 30 unforced CLI `connect`s as long as each driver connect keeps to its three; after the k-th failure an unforced one starts only if k < 10 and strictly more than min(2^(k-1), 60) s later. |
| `LoopSafety.TenthAttemptIsLate` | image/agent/internal/reconciler/reconciler.go:348-378 | When nothing is forced the attempt after the ninth failure starts more than 243 s after the first failure and is the last. |
| `LoopSafety.BackoffIs` | image/agent/internal/reconciler/reconciler.go:352-359 | The delay after the k-th failure is min(2^(k-1), 60) seconds. |
| `PassOutcome.PassAchieves` | image/agent/internal/reconciler/reconciler.go:157-317 | What a whole pass whose calls all succeed ends with. Not wanted: disconnected, or the error shown before. Wanted with an attempt due and no `connecting` shown that nobody is doing: connected. In a new session for the configured location and protocol whenever a reconnect was asked for, an applied uplink is replaced, or an attempt is due and the connection is down or for something else. |
| `PassOutcome.PassConnectsIff` | image/agent/internal/reconciler/reconciler.go:157-287 | A whole pass whose kill switch and uplink calls succeed calls the connect of the driver if and only if that is the case as it begins, unless an attempt becomes due while the pass runs. |
| `PassOutcome.WarrantedPassConnects` | image/agent/internal/reconciler/reconciler.go:251-304 | Such a pass announces the attempt, publishes the protocol it hands over, and ends connected in a new session, or in error with one more failure counted, its code or reconnect_exhausted shown, and the next attempt scheduled. |
| `PassOutcome.RetryIsMade` | image/agent/internal/reconciler/reconciler.go:229-249 | In every run, once the time since the k-th failure, k < 10, exceeds min(2^(k-1), 60) s, the next whole pass calls the connect of the driver, as long as a connection is wanted and shown as neither up nor coming up. |
| `PassOutcome.WhatWarrants` | image/agent/internal/xvpn/manager.go:294-316 | A poll that sees the connection gone, a crash, another location or protocol make the next due pass connect anew; another uplink or a reconnect that is asked for do so at once. |
| `PassOutcome.KillswitchFailureStopsPass` | image/agent/internal/reconciler/reconciler.go:161-167 | After a failed kill switch nothing is left of the pass but the error and the inactive kill switch. |
| `PassOutcome.UplinkFailureStopsPass` | image/agent/internal/reconciler/reconciler.go:193-200 | After a failed uplink the pass shows the error, remembers no uplink and does not connect. |
| `LoopSafety.RetryRun` | image/agent/internal/reconciler/reconciler.go:348-378 | The counter, the backoff time and the recorded failures agree in every reachable state, resets during an attempt included. |
| `LoopUplink.ConnectedIsEarlyIff` | image/agent/internal/reconciler/reconciler.go:174-302 | In every run, `connected` is at some time shown without a new session since the last uplink Apply began if and only if at some time a switch starts on a connection that is up and unwanted, or a poll or the start-up of the daemon adopts a session with none made since. |
| `LoopUplink.ConnectedIsNeverEarly` | image/agent/internal/reconciler/reconciler.go:174-302 | Over any stretch that starts without `connected`, in which a connection stays wanted and no session is adopted, `connected` means a driver connect returned nil after the last uplink Apply began, on a session that did not exist then; so the gate is shut for the whole of every switch. |
| `LoopUplink.GateOpensInSwitchIff` | image/agent/internal/reconciler/reconciler.go:180-211 | In every run, the gate is open at some time of some switch if and only if at some time a switch starts on a connection that is up and unwanted, or a poll or the start-up of the daemon adopts a session during a switch. |
| `LoopUplink.SwitchesCanBeOpen` | image/agent/cmd/detour-agent/main.go:247-285 | Each of these happens in a run from the start, and wanting the connection again does not shut the gate. |
| `LoopUplink.GateRun` | image/agent/internal/xvpn/manager.go:294-316 | From any world with sound bookkeeping: the meaning of `connected` is lost somewhere in a run if and only if one of the two causes occurs in it. |
| `LoopUplink.StaleProbesNeverWin` | image/agent/internal/uplink/manager.go:284-313 | In every interleaving, unless an Apply result is about to be published, udpSupported is unknown, the constant of the applied uplink, or the result of the probe that its own Apply started. |
| `LoopUplink.UdpProtocolsAreProven` | image/agent/internal/reconciler/reconciler.go:266-287 | Over a socks5 uplink a protocol that needs UDP reaches the driver only if that uplink has udp=on or its own probe succeeded. |
| `LoopUplink.CliProtocolsAreProven` | image/agent/internal/xvpn/manager.go:80-84 | The same for the names the daemon is told: over a socks5 uplink it is told one that needs UDP only if that uplink is proven, and always one it knows. |
| `LoopUdp.UdpShownIsKnown` | image/agent/internal/uplink/manager.go:284-313 | In every run, except while a switch is under way, the shown udpSupported is exactly what is known: the constant of the applied uplink or the result of its own probe as soon as that has finished, however early; unknown after a failed Apply. |
| `LoopUdp.WaitLearnsTheProbe` | image/agent/internal/reconciler/reconciler.go:266-275 | So a pass that waits for UDP learns the result of the current probe whenever that has finished. |
| `LoopUdp.SwitchIsAnnounced` | image/agent/internal/reconciler/reconciler.go:180-193 | In every run, for as long as the Apply of the driver takes, the snapshot shows the new mode as unknown and being applied. |
| `LoopUdp.SettingsAreRemembered` | image/agent/internal/reconciler/reconciler.go:214-222 | In every run the reconciler remembers the settings of the latest successful call, so that after a failed one the next pass calls again. |
| `LoopUplink.ApplyKeepsUdp` | image/agent/internal/uplink/manager.go:77-165 | One Apply keeps the published udpSupported justified by the uplink it leaves applied. |
| `LoopUplink.UplinkWorksIff` | image/agent/internal/reconciler/reconciler.go:174-203 | In every run, while the reconciler believes in a socks5 uplink, that uplink is applied with its engine running if and only if the latest Apply or engine death was an Apply that succeeded. |
| `LoopUplink.MemoryAgreesIffNotFailed` | image/agent/internal/reconciler/reconciler.go:192-203 | The two memories alone: while the reconciler believes in a socks5 uplink, the driver remembers it as applied if and only if the latest Apply did not fail, whether or not its engine still runs; with no failure they agree in any mode. |
| `LoopUplink.OriginalsComeBackInEveryRun` | image/agent/internal/uplink/manager.go:77-165 | Over every run of the control loop, whatever fails but writing resolv.conf and tearing down: unless a socks5 uplink is applied the routed networks, default routes and resolv.conf are the originals; while one is, the default goes to the TUN peer or nowhere and what is needed to return is kept. |
| `LoopPass.RevertSkipsTornDownUplink` | image/agent/internal/reconciler/reconciler.go:174-212 | A failed switch away from socks5 followed by a revert: the next pass gets past the uplink without an Apply although the driver has torn it down. |
| `LoopPass.RevertSkipsTornDownUplinkInARun` | image/agent/internal/reconciler/reconciler.go:174-212 | The same as a run from the start. |
| `LoopPass.DeadEngineStaysDead` | image/agent/internal/uplink/manager.go:90-94 | A run from the start: after the engine of the applied socks5 uplink has died, the next whole pass changes nothing, so no later one rebuilds it, although Apply would. |
| `LoopPass.SuccessfulPassIsFixpoint` | image/agent/internal/reconciler/reconciler.go:157-317 | After a pass whose driver calls all succeed and that leaves the connection as wanted, the next pass, however much later, calls no driver and changes no state. |
| `LoopPass.PassEndsQuiescent` | image/agent/internal/reconciler/reconciler.go:157-317 | Such a pass ends with all four memories equal to the configuration and no force pending. |
| `LoopPass.FirstPass` | image/agent/internal/reconciler/reconciler.go:157-317 | The first pass with successful calls and nothing asked of the connection ends with everything applied and the connection disconnected. |
| `LoopPass.StrandedUntilRescued` | image/agent/internal/reconciler/reconciler.go:225-249 | A wanted connection that is shown as connecting while no attempt is under way stays so at a step if and only if the step is none of: a disconnect or logout, the two steps of a reconnect, a crash or a different start-up of the daemon, another uplink. |
| `LoopPass.StrandedForGood` | image/agent/internal/reconciler/reconciler.go:225-249 | Over any run without those the driver is never asked to connect. |
| `LoopPass.StartUpCanStrand` | image/agent/cmd/detour-agent/main.go:259-275 | It happens in a run from the start: the daemon comes up connecting, and the connect of the user finds it so. |
| `Reconciler.Reconciler.Reconcile` | image/agent/internal/reconciler/reconciler.go:157-317 | The pass over the mutable fields and drivers is one whole pass of the transition system that the run lemmas are about: it leaves Idle with the configuration read, makes every section in order, and is back in Idle only at its end; the CLI `connect`s it reports are those added to the journal of the driver. |
| `Reconciler.Reconciler.Stages` | image/agent/internal/reconciler/reconciler.go:159-317 | Kill switch, uplink, settings and connection in this order, a failure of one of the first two ending the pass. |
| `Reconciler.Reconciler.KillswitchStage` | image/agent/internal/reconciler/reconciler.go:161-171 | The kill switch stage over the fields is the corresponding section of the transition system; a failure ends the pass. |
| `Reconciler.Reconciler.ApplyUplink` | image/agent/internal/reconciler/reconciler.go:173-212 | Announcement, driver Apply and publication over the fields are the corresponding sections, the probe result that came first surviving. |
| `Reconciler.Reconciler.DecideToConnect` | image/agent/internal/reconciler/reconciler.go:225-249 | Takes the one-shot force and decides as the transition system does. |
| `Reconciler.Reconciler.AwaitProbe` | image/agent/internal/reconciler/reconciler.go:266-275 | Waits for the probe of the current uplink and publishes what it learned. |
| `Reconciler.Reconciler.Establish` | image/agent/internal/reconciler/reconciler.go:276-304 | Protocol choice, driver connect and both outcomes over the fields are a run of the transition system; nil really is a new session, and the CLI `connect`s that the run reports are those added to the journal of the driver; every `connect` is for the configured location and the published protocol, and so is the session on success. |
| `Reconciler.Reconciler.OnConnectFailure` | image/agent/internal/reconciler/reconciler.go:348-378 | Counts the failure, schedules the retry below ten, tells the daemon to disconnect, once, and publishes the error. |
| `Reconciler.Reconciler.DisconnectStage` | image/agent/internal/reconciler/reconciler.go:305-316 | Disconnects when anything but disconnected is shown; a failure keeps the shown connection, and disconnected is shown only when the daemon is. |
| `Reconciler.Reconciler.ForgetConnection` | image/agent/internal/reconciler/reconciler.go:124-128 | Arms the one-shot force; on a user request it is the force event of the transition system. |
| `Reconciler.Reconciler.ConnectAction` | image/agent/internal/reconciler/actions.go:56-63 | Is the connect event followed by a reset of the retries. |
| `Reconciler.Reconciler.ReconnectAction` | image/agent/internal/reconciler/actions.go:73-83 | Fails when no connection is wanted; otherwise marks reconnecting, arms the force and resets the retries. |
| `Reconciler.ActionsUnblock` | image/agent/internal/reconciler/actions.go:49-85 | Whatever failed before, the next decision after a connect or reconnect action is to connect, unless a connection is shown or announced and nothing forces a new one. |
| `Reconciler.Reconciler.ResetRetries` | image/agent/internal/reconciler/reconciler.go:132-138 | Starts a new retry epoch, also while an attempt is running. |
| `Reconciler.Reconciler.SuperviseOnce` | image/agent/internal/xvpn/manager.go:294-316 | A poll turns a shown `connected` into reconnecting when the daemon has left Connected, wakes the loop exactly then, adopts an outside session, and otherwise changes nothing. |
| `StateStore.SubscribersStayCurrent` | image/agent/internal/state/store.go:26-67 | For Updates that do not overlap and a reader that may receive between any two channel operations, snapshots are received in update order, and when no Update runs the newest is waiting or was the last received. |
| `StateStore.OverlapCanLoseTheNewest` | image/agent/internal/state/store.go:34-50 | Two overlapping Updates can leave the older snapshot in the channel for good. |
| `StateStore.CurrentIffNewestWasPutLast` | image/agent/internal/state/store.go:34-50 | However the Updates overlap: when none is running, a subscriber is current if and only if the newest snapshot was the last to be put into its channel. |
| `StateStore.CurrentIffNewestPutsForGood` | image/agent/internal/state/store.go:34-50 | The same on the schedule: the put of the newest Update succeeds and nothing is put after it, or there was no Update. |
| `StateStore.FinalStateEndsTheWait` | image/agent/internal/reconciler/actions.go:126-147 | Once updates stop with the target or an error showing, one more receive at the latest ends waitConnection. |
| `StateStore.AwaitConnection` | image/agent/internal/reconciler/actions.go:131-146 | The waiting loop ends at the first snapshot that is the target or an error, and times out if and only if none is. |
| `StateStore.FirstDecides` | image/agent/internal/reconciler/actions.go:131-146 | The verdict is that of the first snapshot that is the target or an error. |
| `StateStore.Store.Update` | image/agent/internal/state/store.go:26-51 | Every subscriber ends with the new snapshot waiting or received, an unread older one received first or replaced. |
| `StateStore.Store.Subscribe` | image/agent/internal/state/store.go:54-67 | The current snapshot is in the new channel at once. |
| `StateStore.Store.Unsubscribe` | image/agent/internal/state/store.go:61-65 | Updates that begin later do not know the channel; the other subscribers stay. |
| `JsonPatch.MergePatch` | image/agent/internal/config/store.go:143-167 | The two loops of mergePatch compute the member-by-member merge in whatever order the map is visited. |
| `JsonPatch.MergeIsRfcOfStripped` | image/agent/internal/config/store.go:143-167 | Merging is exactly MergePatch of section 2 of RFC 7386 for the patch with its masked password leaves taken out, at any depth. |
| `JsonPatch.MergeIsRfc` | image/agent/internal/config/store.go:143-167 | A patch with no mask is merged exactly as RFC 7386 says. |
| `JsonPatch.StripsOnlyMaskedPasswords` | image/agent/internal/config/store.go:149-160 | What is taken out is the string *** under the key password and nothing else. |
| `JsonPatch.MergeIsIdempotent` | image/agent/internal/config/store.go:143-167 | Merging the same patch twice is merging it once. |
| `JsonPatch.DiffKeys` | image/agent/internal/config/store.go:180-206 | The recursive loop lists every differing path once, in whatever order. |
| `JsonPatch.DiffIsMinimal` | image/agent/internal/config/store.go:180-206 | A path is reported if and only if it is where the two trees part: objects on both sides on the way, a difference that is not two objects at its end. |
| `JsonPatch.DiffEmptyIffEqual` | image/agent/internal/config/store.go:180-206 | The diff is empty if and only if the trees are equal. |
| `Config.ValidIff` | image/agent/internal/config/config.go:68-96 | A configuration is valid if and only if protocol, mode and udp are known ones, a socks5 uplink has a host and a port in 1..65535, and a set auth has both fields; the field named for an invalid one is at fault. |
| `Config.RedactedMeans` | image/agent/internal/config/config.go:110-122 | The redacted form keeps everything but the two passwords, each of which is empty if and only if the original is, and else ***. |
| `Config.SecretsDoNotShow` | image/agent/internal/config/config.go:110-122 | Two configurations that differ only in non-empty passwords have the same redacted form and the same encoding of it. |
| `Config.DecodeEncode` | image/agent/internal/config/config.go:10-54 | Decoding an encoded configuration gives it back, strictly or not and over any previous value. |
| `Config.DecodeReadsExpressVPN` | image/agent/internal/config/config.go:16-22 | Every member that is present sets its field, by its name in the text; every other field stays as it was. |
| `Config.DecodeReadsProtections` | image/agent/internal/config/config.go:24-29 | The same for the protections. |
| `Config.DecodeReadsUplink` | image/agent/internal/config/config.go:31-43 | The same for the uplink. |
| `Config.DecodeReadsAuth` | image/agent/internal/config/config.go:45-53 | A null auth becomes nil, an object fills what is pointed to. |
| `Config.StrictKnowsItsFields` | image/agent/internal/config/store.go:81-84 | A strict decoder accepts no member that is not a field, at any depth. |
| `Config.RedactedRoundTrip` | image/agent/internal/config/config.go:110-122 | Sending back the redacted configuration as a merge patch and decoding gives the configuration it was made from, nil auth and a password that is literally the mask included. |
| `Config.SentBackTree` | image/agent/internal/config/store.go:143-167 | The tree after sending back: unchanged, except that a nil auth leaves the member out. |
| `Config.SentBackDiff` | image/agent/internal/config/store.go:180-206 | The keys reported for it are none if auth is set, and exactly proxy.auth if it is nil. |
| `Config.MergeOfRepeatIsNoop` | image/agent/internal/config/store.go:149-160 | A patch that repeats a tree without nulls, passwords possibly masked, changes nothing. |
| `ConfigStore.Store.constructor` | image/agent/internal/config/store.go:24-42 | Starts with the defaults when there is no file and with the decoded file otherwise. |
| `ConfigStore.Store.ApplyMergePatch` | image/agent/internal/config/store.go:59-105 | Rejects exactly what has no valid target; on any error memory and file are as before; success installs the whole target, reports the differing keys and calls the change callback once; an empty diff saves nothing. |
| `ConfigStore.Store.Save` | image/agent/internal/config/store.go:108-138 | With a step failing or the process dying before any step, the file is the old one or the complete new one, never a mix. |
| `ConfigStore.TargetMeans` | image/agent/internal/config/store.go:59-89 | What a patch asks for is the MergePatch of RFC 7386 of the encoded configuration with the masked passwords taken out of the patch, read strictly and valid. |
| `ConfigStore.RenameDecides` | image/agent/internal/config/store.go:108-138 | Nothing is stored before the rename and everything from it on. |
| `ConfigStore.PatchIsAtomic` | image/agent/internal/config/store.go:59-138 | Whatever the fault, a restart finds the old configuration or the whole new one, and an error leaves both as they were. |
| `ConfigStore.RunStaysValid` | image/agent/internal/config/store.go:24-138 | Over any run of patches, failing steps, crashes and restarts the current configuration is valid, equals the stored one, and the process can start again. |
| `ConfigStore.SavedLoads` | image/agent/internal/config/store.go:24-42 | What is saved loads as itself. |
| `Logs.NeverLeftIffTame` | image/agent/internal/logs/logs.go:132-139 | A registered secret is masked for good, whatever the text, the other secrets and the order, if and only if it has no star at either end and no whole mask inside; otherwise some text leaves it even when it is the only secret. |
| `Logs.NoSecretIsLeft` | image/agent/internal/logs/logs.go:132-139 | A secret with no star at either end and no whole mask inside occurs in no redacted string, whatever the other secrets, the overlaps and the order of registration. |
| `Logs.StarsCanReassembleASecret` | image/agent/internal/logs/logs.go:132-139 | With a star at its end a secret can be completed by the mask of a later one. |
| `Logs.FirstOccurrenceIsMasked` | image/agent/internal/logs/logs.go:132-139 | Where a secret first occurs it becomes ***; what is before stays and what is after is treated alike. |
| `Logs.RedactIdentity` | image/agent/internal/logs/logs.go:132-139 | A string that contains no secret is untouched. |
| `Logs.RedactIdempotent` | image/agent/internal/logs/logs.go:132-139 | When every secret is of that kind, redacting twice is redacting once. |
| `Logs.OccursSurvivesOnly` | image/agent/internal/logs/logs.go:132-139 | Replacing a secret uncovers no string of that kind that was not there before. |
| `Logs.Redactor.Add` | image/agent/internal/logs/logs.go:118-130 | Registers a secret of at least four characters once. |
| `Logs.Redactor.Redact` | image/agent/internal/logs/logs.go:132-139 | Replaces the secrets in registration order, and leaves no secret of that kind behind. |
| `Logs.Buffer.Append` | image/agent/internal/logs/logs.go:40-66 | Appends the redacted entry to the history of which the ring keeps the newest capacity entries. |
| `Logs.Buffer.Query` | image/agent/internal/logs/logs.go:68-93 | Exactly the last limit matching entries among the last capacity entries ever appended, in append order. |
| `Logs.QueryMeans` | image/agent/internal/logs/logs.go:68-93 | Entry by entry: each returned entry has the component and is not older than asked for, they stand in append order, and an entry that fits is only left out when limit later ones fit. |
| `Logs.NewestMatching` | image/agent/internal/logs/logs.go:68-93 | Scanning back may stop at the limit: the matches among the newest scanned entries are the last matches of all. |
| `Sessions.WindowIsBounded` | image/agent/internal/api/sessions.go:145-171 | With at most m callers between the throttle check and the record of the outcome, any half-open 30 s window holds at most m + 4 evaluated wrong attempts. |
| `Sessions.WindowHoldsAtMostFive` | image/agent/internal/api/sessions.go:145-171 | For callers that take turns: at most five. |
| `Sessions.RateIsBounded` | image/agent/internal/api/sessions.go:145-171 | In any duration D at most (m + 4) (D / 30 s + 1) wrong attempts are evaluated. |
| `Sessions.BoundIsReached` | image/agent/internal/api/sessions.go:145-171 | For every m a run reaches m + 4, so callers that overlap at will get any number of attempts evaluated at one instant. |
| `Sessions.FifthFailureBlocks` | image/agent/internal/api/sessions.go:145-171 | The fifth wrong password in a row throttles every attempt of the next 30 seconds and none after; a correct one, when not throttled, is accepted and starts the count again. |
| `Sessions.VerifyIsCheckThenRecord` | image/agent/internal/api/sessions.go:145-171 | One verification of a wrong password is the check and the record with nobody between. |
| `Sessions.NeverUnsetAgain` | image/agent/internal/api/sessions.go:71-142 | Over any run of operations, each stopped after any of its file steps, a volume whose protection was decided on never looks fresh again unless reset. |
| `Sessions.CompleteOperations` | image/agent/internal/api/sessions.go:71-142 | What each operation comes to when it is not cut short. |
| `Sessions.PasswordHoldsUntilTheLastStep` | image/agent/internal/api/sessions.go:97-142 | The password is in force until the last step of Disable and from the first step of SetPassword. |
| `Sessions.DisableIsUndoneIff` | image/agent/internal/api/sessions.go:71-142 | Whatever operations come between the two steps of Disable, other Disables and resets included, the volume looks fresh afterwards if and only if the last one that touches the marker removes it: an AuthDisabled that finds a password, a complete SetPassword or reset, against a verified Disable or a Skip that finds no password; otherwise Disable has its effect. |
| `Sessions.LoneDisableIsUndoneIff` | image/agent/internal/api/sessions.go:71-142 | With no other Disable and no reset in between: if and only if an AuthDisabled or a complete SetPassword is among them. |
| `Sessions.SessionManager.VerifyPassword` | image/agent/internal/api/sessions.go:145-171 | Throttled before the block ends; an unreadable file changes nothing; otherwise the verdict and the new counters are those of the bounded attempt sequence. |
| `Sessions.SessionManager.CheckBlock` | image/agent/internal/api/sessions.go:146-151 | The first time the mutex is held is the check step. |
| `Sessions.SessionManager.RecordOutcome` | image/agent/internal/api/sessions.go:159-170 | The second time is the record step, or a reset after a correct password. |
| `Sessions.SessionManager.DisableProtection` | image/agent/internal/api/sessions.go:97-110 | Only a verified password gets to the file steps, marker first; sessions are dropped exactly when both steps are done. |
| `Sessions.SessionManager.StorePassword` | image/agent/internal/api/sessions.go:121-142 | Hash first, then the marker goes. |
| `Sessions.SessionManager.SkipProtection` | image/agent/internal/api/sessions.go:84-92 | Writes the marker only while there is no password. |
| `Sessions.SessionManager.IsDisabled` | image/agent/internal/api/sessions.go:71-78 | A password wins over the marker, which is then removed. |
| `UdpHeader.ParseOfPack` | image/agent/internal/proxy/udp.go:183-241 | The header put before a reply parses back to the sender in its printed form and ends where the payload starts, for 4- and 16-byte addresses: section 7 of RFC 1928. |
| `UdpHeader.ParseOfName` | image/agent/internal/proxy/udp.go:205-226 | A whole header with a name of 1 to 255 bytes ends where the payload starts and stands for the resolved address and its port; it is refused if and only if the name does not resolve: section 7 of RFC 1928. |
| `UdpHeader.ParseOfAddress` | image/agent/internal/proxy/udp.go:183-204 | The same for addresses, whatever the reserved bytes. |
| `UdpHeader.AcceptedIff` | image/agent/internal/proxy/udp.go:183-227 | What is accepted: an unfragmented datagram with a whole header, and a name that resolves unless it is empty. |
| `Socks.CanonMeans` | image/agent/internal/proxy/udp.go:229-241 | An address prints as IPv4 if and only if it has four bytes or is IPv4-mapped. |
| `UdpHeader.PackOfCanon` | image/agent/internal/proxy/udp.go:229-241 | Addresses that print alike have the same header. |
| `UdpHeader.PackOfParseIff` | image/agent/internal/proxy/udp.go:183-241 | Packing the target of an accepted address header gives the header back if and only if its reserved bytes are zero and it does not spell an IPv4 address as a mapped sixteen-byte one. |
| `UdpHeader.Itoa` | image/agent/internal/proxy/udp.go:43-55 | The decimal digits of the number, with no leading zero, within eight digits. |
| `UdpRelay.RepliesComeFromAddressedTargets` | image/agent/internal/proxy/udp.go:84-101 | Over any run, each datagram sent to a client has a header that decodes to the actual sender, the payload intact, and that client earlier had a datagram forwarded to that sender through the open gate. |
| `UdpRelay.AddressedTargetsAreAnswered` | image/agent/internal/proxy/udp.go:84-101 | Conversely, until a read times out, what an addressed target sends goes to some client that addressed it, unless the target is itself a client. |
| `UdpRelay.ReplyIsCertainIffOneFlowKnows` | image/agent/internal/proxy/udp.go:87-94 | In every reachable state a reply is sure to reach a given client if and only if no other flow knows the sender. |
| `UdpRelay.SharedTargetMayAnswerEither` | image/agent/internal/proxy/udp.go:84-122 | Two clients that address one target may each get what it sends. |
| `UdpRelay.NameIsForwarded` | image/agent/internal/proxy/udp.go:102-142 | Through the open gate, a datagram to a name sends exactly the payload to exactly the resolved address and port, counts it and enters that address in the flow of the client; a name that does not resolve changes nothing. |
| `UdpRelay.AddressIsForwarded` | image/agent/internal/proxy/udp.go:102-142 | The same for a datagram to an address. |
| `UdpRelay.TableIsSound` | image/agent/internal/proxy/udp.go:83-143 | In every reachable state each flow belongs to its key, dates from the latest forwarded datagram of its client, and stores under each target the header of that target, to which a datagram went. |
| `UdpRelay.ShutGateForwardsNothing` | image/agent/internal/proxy/udp.go:102-139 | While the gate is shut nothing goes to a target and no flow appears, learns a target or is kept alive. |
| `UdpRelay.CountersAreSums` | image/agent/internal/proxy/udp.go:96-142 | bytesIn and bytesOut are the payload sums of what was written to the socket, headers excluded. |
| `UdpRelay.FlowsExpireIffIdle` | image/agent/internal/proxy/udp.go:68-79 | A flow disappears only on a read timeout more than a minute after the last cleanup, exactly when idle for more than five minutes. |
| `UdpRelay.UdpRelay.Handle` | image/agent/internal/proxy/udp.go:80-142 | One datagram over the mutable table does one step of the run, for some choice of the flow among those that know the sender. |
| `UdpRelay.UdpRelay.FindFlow` | image/agent/internal/proxy/udp.go:86-94 | Finds a flow that knows the sender if and only if there is one. |
| `UdpRelay.UdpRelay.ReadTimedOut` | image/agent/internal/proxy/udp.go:70-79 | A read timeout cleans up when the last cleanup is more than a minute old. |
| `UdpRelay.UdpRelay.Expire` | image/agent/internal/proxy/udp.go:146-154 | Keeps exactly the flows heard from within five minutes. |
| `SocksDialog.DialogSucceedsIff` | image/agent/internal/selfcheck/selfcheck.go:271-358 | For credentials and host of at most 255 bytes, the dialog succeeds if and only if the authentication settings agree, the gate is open, the target is a literal or its host resolves, and that address can be dialed at the port of the target; then the server serves exactly the target of the client, the client has consumed exactly what the server wrote and the server exactly what the client wrote: sections 3 to 6 of RFC 1928 and section 2 of RFC 1929. |
| `SocksDialog.ShutGateConnectsNothing` | image/agent/internal/proxy/server.go:178-183 | With the gate shut nothing is connected, whatever is sent, and the outcome is the same for any resolver and dialer. |
| `SocksDialog.ConnectIsAnswered` | image/agent/internal/proxy/server.go:178-199 | Reply 3 while the gate is shut or when dialing fails, 4 when the name does not resolve, and 0 with the address of the dialed connection if and only if the gate is open, the host is an address or resolves, and it can be dialed. |
| `SocksDialog.AnyOfferWillDo` | image/agent/internal/proxy/socks5.go:55-86 | Any list of offered methods will do that has the right one, wherever it stands, and no other. |
| `SocksDialog.Ipv6RequestIsRead` | image/agent/internal/proxy/socks5.go:118-148 | A request with a sixteen-byte address is decoded as it stands. |
| `SocksDialog.RefusalsAreNamed` | image/agent/internal/proxy/server.go:159-175 | An unknown address type is refused with reply 8 and an unknown command with reply 7. |
| `SocksDialog.DialogExists` | image/agent/internal/selfcheck/selfcheck.go:271-358 | There is such a dialog for every client, server and environment, so the statement above is about something. |
| `SocksDialog.LongCredentialsNeverLogIn` | image/agent/internal/selfcheck/selfcheck.go:298-313 | Agreeing credentials longer than 255 bytes never log in: the length bytes wrap. |
| `SocksDialog.LongCredentialsAdmitNobody` | image/agent/internal/proxy/socks5.go:89-115 | A server with such credentials rejects every input. |
| `SocksDialog.GreetingIsRead` | image/agent/internal/proxy/socks5.go:55-86 | The server reads exactly the greeting and settles the method, or refuses when one side has credentials and the other has none. |
| `SocksDialog.LoginIsRead` | image/agent/internal/proxy/socks5.go:89-115 | The server reads exactly the login and accepts it if and only if both fields are its own. |
| `SocksDialog.RequestIsRead` | image/agent/internal/proxy/socks5.go:118-164 | The server decodes exactly the command, host or IPv4 literal and port of the client and leaves the rest unread. |
| `SocksDialog.ReplyIsRead` | image/agent/internal/proxy/socks5.go:169-192 | The client consumes exactly the reply the server wrote, for IPv4 and IPv6 bound addresses, and takes it as a success if and only if its code is zero. |
| `SocksDialog.AssociateIsAnswered` | image/agent/internal/proxy/udp.go:159-178 | UDP ASSOCIATE is answered with success if and only if the gate is open and there is a relay; the client then has consumed exactly the answer. |
| `SocksPeers.ReadHandshake` | image/agent/internal/proxy/socks5.go:55-86 | The method loop over the connection is the server half the dialog lemmas are about. |
| `SocksPeers.VerifyUserPass` | image/agent/internal/proxy/socks5.go:89-115 | The login over the connection, step by step. |
| `SocksPeers.ReadRequest` | image/agent/internal/proxy/socks5.go:118-130 | The request over the connection, step by step. |
| `SocksPeers.ReadAddr` | image/agent/internal/proxy/socks5.go:132-164 | The three address types, and the error for any other. |
| `SocksPeers.WriteReply` | image/agent/internal/proxy/socks5.go:169-192 | Writes the reply, the zero IPv4 address standing for an absent bound one. |
| `SocksPeers.HandleConnect` | image/agent/internal/proxy/server.go:178-199 | Gate, resolver and dialer decide the reply code and the bound address. |
| `SocksPeers.HandleUDPAssociate` | image/agent/internal/proxy/udp.go:159-178 | Gate and relay decide the reply code; success names the zero address and the relay port. |
| `SocksPeers.Handle` | image/agent/internal/proxy/server.go:152-176 | Handshake, request and command over the connection, the unsupported cases answered. |
| `SocksPeers.SocksDialVia` | image/agent/internal/selfcheck/selfcheck.go:271-358 | The client over the connection is the client half the dialog lemmas are about. |

## Left out

- LoopUplink.ConnectedIsNeverEarly: assumes that neither a poll nor the daemon's start-up adopts a session made outside the agent and that nobody logs out or disconnects during the stretch; without the assumption LoopUplink.ConnectedIsEarlyIff says when it fails.
- LoopUplink.StaleProbesNeverWin: does not cover the manual probe action, which publishes without the generation check, nor the moment between the return of Apply and its publication.
- UplinkDriver.OriginalsComeBack: assumes that resolv.conf can be written, that tearing down works and that the container starts with one default route of metric 0 through the gateway; a failing `ip` or a failing write while tearing down is only logged by the code and leaves whatever it leaves.
- LoopUplink.UplinkWorksIff: the monitor's status values are not modelled; they show a dead engine but do not make a pass rebuild it.
- UplinkDriver.TeardownRestores: models routes dropped with the TUN device when the engine stops; routes of other programs over that device are not modelled.
- StateStore.Store.Update: is about one Update at a time with a reader in between; overlapping ones are the subject of StateStore.CurrentIffNewestWasPutLast.
- StateStore.Store.Unsubscribe: an Update that copied the subscribers before still sends to the channel, which nobody reads any more; Update is one step of the store here.
- Config.RedactedRoundTrip: numbers are integers; rounding of numbers beyond 2^53 in the JSON trees, and the decoder's case-insensitive member names, are not modelled.
- ConfigStore.Store.ApplyMergePatch: applied keys are a set of paths; their dotted text and sorting are not modelled.
- Logs.Buffer.Append: log subscribers are not modelled.
- Sessions.WindowIsBounded: correct passwords, which reset the counter, are not among its attempts.
- Sessions.SessionManager.VerifyPassword: whether the password is correct is an input; argon2 and the PHC text are not modelled.
- SocksDialog.DialogSucceedsIff: a host longer than 255 bytes wraps its length byte and is outside the statement; whether a host spells an IPv4 literal is an input; dialogs cut short by a deadline or a lost connection are not covered.
- UdpRelay.RepliesComeFromAddressedTargets: senders are 4- or 16-byte addresses without a zone, and addresses are identified with their printed form; datagrams longer than the 64 KiB buffer cannot occur.
- Reconciler.Reconciler.KillswitchStage: the arguments of the kill switch and settings commands are recorded, their effect is not modelled.
- XvpnManager.Manager.Connect: publishing region and public IP after success is not modelled, and the CLI's own timeouts are folded into its arbitrary failures.
- Reconciler.Reconciler.Reconcile: consecutive store updates with no call in between are one section; log messages, endpoint strings and error texts are not modelled; between its stages it runs alone, the interleaved runs being those of ControlLoop.
- Shutdown, `Run` loops, wake-up channels and tickers: passes may start at any time, which covers every schedule.
- The web UI, HTTP and SSE handlers, cookies, CSRF, session expiry, the operation lock and token store: plumbing around the modelled state.
- Rule sets of the kill switch, the engine's configuration text, the resolver file's text, region and status parsing: fixed texts or single-branch facts.
- The self-check's IP fetching and verdict, the uplink monitor's status values, Network Lock re-checks, login and logout commands: no property beyond their bodies.
- The copying of application data through an established SOCKS5 connection.
