/** The agent's control loop as a transition system. A pass of the reconciler is cut into the sections between which other
    goroutines run: the start-up of the daemon, supervision polls, daemon crashes, user actions, configuration changes, UDP
    probes and the clock. */
module ControlLoop {
  import opened Wrappers
  import opened Config
  import opened Daemon
  import opened AgentState
  import U = UplinkDriver

  const MAX_FAILURES := 10
  const ZERO_TIME := -1

  datatype Reason = UplinkChanged | UserRequest

  datatype ConnSpec = ConnSpec(location: string, protocol: string)

  /** The reconciler's memory. Times are in milliseconds; `ZERO_TIME` precedes every instant. */
  datatype Memory = Memory(ks: Option<Uplink>, uplink: Option<Uplink>, evpn: Option<ExpressVPN>, conn: Option<ConnSpec>,
                           failures: nat, nextRetryAt: int, force: Option<Reason>)

  /** Where the running pass is, with the local variables it still needs: `c` is the configuration it read. */
  datatype Pc =
    | Idle
    | ReadDesired(c: Config)
    | StageKillswitch(c: Config, wasDesired: bool)
    | StageUplink(c: Config, wasDesired: bool)
    | ApplyingUplink(c: Config)
    | UplinkApplied(c: Config, up: UplinkState, ok: bool)
    | StageSettings(c: Config)
    | ReadState(c: Config)
    | Decide(c: Config, desired: bool, conn: Connection)
    | MarkConnecting(c: Config, forced: bool)
    | ReadUdp(c: Config, forced: bool)
    | AwaitUdp(c: Config, forced: bool)
    | PublishUdp(c: Config, forced: bool, udp: Tri)
    | ChooseProtocol(c: Config, forced: bool, udp: Tri)
    | Connecting(c: Config, forced: bool, effective: string, sessionsBefore: nat)
    | AfterFailure(c: Config, n: nat, code: string)
    | Disconnecting(c: Config)

  /** A driver connect of the current retry epoch: when it started, whether forced, how many failures preceded it and how
      many CLI `connect`s it issued. */
  datatype Attempt = Attempt(at: nat, forced: bool, after: nat, cli: nat)

  /** What an observer records. `sessionSince`: a driver connect returned nil since the last uplink Apply began, when there were
      `sessionsAtApply` sessions; `attempts` and `failTimes` belong to the epoch since the last reset, `crossing` says that
      it began during an attempt; `probes` holds the published or discarded result of every finished probe. */
  datatype History = History(ksOk: Option<Uplink>, sessionSince: bool, sessionsAtApply: nat,
                             lastApplyFailed: bool, attempts: seq<Attempt>, failTimes: seq<nat>, crossing: bool,
                             probes: map<nat, Tri>, driverCalls: nat)

  datatype World = World(cfg: Config, st: State, mem: Memory, pc: Pc, driver: U.Driver, sessions: nat, now: nat, h: History)

  /** How the outside answers one section: a driver call's success, error code and number of CLI `connect`s, the sessions
      the daemon has by then, the uplink's surroundings, and whether the awaited probe came in time. */
  datatype Answer = Answer(ok: bool, code: string, cli: nat, sessions: nat, uplink: U.Answer, inTime: bool)

  datatype Event =
    | Pass(a: Answer)
    | Tick(ms: nat)
    | SetConfig(c: Config)
    | Supervise(polled: Connection)
    | DaemonReady(polled: Connection)
    | DaemonNotReady
    | Autoconnect
    | DaemonCrash
    | SessionsGrow(n: nat)
    | WantConnected
    | WantDisconnected
    | LoggedOut
    | MarkReconnecting
    | ForceReconnect
    | ResetRetries
    | ProbeDone(run: nat, supported: bool)
    | EngineDies(dropsRoutes: bool)

  function Backoff(n: nat): nat
    requires n >= 1
  {
    if n >= 7 then 60_000 else [1_000, 2_000, 4_000, 8_000, 16_000, 32_000][n - 1]
  }

  function Want(c: Config): ConnSpec {
    ConnSpec(c.expressvpn.location, c.expressvpn.protocol)
  }

  function Requested(c: Config): string {
    if c.expressvpn.protocol == "" then "auto" else c.expressvpn.protocol
  }

  // ---------- one section of a pass ----------

  function Failed(st: State, code: string): State {
    st.(lastError := Some(code))
  }

  function Called(h: History): History {
    h.(driverCalls := h.driverCalls + 1)
  }

  function KillswitchSection(w: World, a: Answer): World
    requires w.pc.StageKillswitch?
  {
    var c := w.pc.c;
    var next := w.(pc := StageUplink(c, w.pc.wasDesired));
    if w.mem.ks == Some(c.uplink) then next
    else if !a.ok then
      w.(pc := Idle, st := Failed(w.st, "killswitch_failed").(ksActive := false), h := Called(w.h))
    else
      next.(mem := w.mem.(ks := Some(c.uplink)), st := w.st.(ksActive := true),
            h := Called(w.h).(ksOk := Some(c.uplink)))
  }

  /** Announces the rebuild before it starts. */
  function UplinkSection(w: World): World
    requires w.pc.StageUplink?
  {
    var c := w.pc.c;
    if w.mem.uplink == Some(c.uplink) then w.(pc := StageSettings(c))
    else
      w.(pc := ApplyingUplink(c),
         st := w.st.(uplink := UplinkState(c.uplink.mode, UplinkUnknown, TriUnknown, "applying"),
                     conn := if w.st.desired && w.st.conn == ConnConnected then ConnReconnecting else w.st.conn),
         mem := if w.pc.wasDesired && w.mem.uplink.Some? then w.mem.(force := Some(UplinkChanged)) else w.mem,
         h := Called(w.h).(sessionSince := false, sessionsAtApply := w.sessions))
  }

  function ApplySection(w: World, a: Answer): World
    requires w.pc.ApplyingUplink?
  {
    var r := U.Apply(w.driver, w.st.uplink.udp, w.pc.c.uplink, a.uplink);
    w.(pc := UplinkApplied(w.pc.c, r.up, r.ok), driver := r.d, st := w.st.(uplink := w.st.uplink.(udp := r.udp)),
       h := w.h.(lastApplyFailed := !r.ok))
  }

  function PublishUplinkSection(w: World): World
    requires w.pc.UplinkApplied?
  {
    var c, up := w.pc.c, w.pc.up;
    if !w.pc.ok then w.(pc := Idle, st := Failed(w.st, "uplink_failed").(uplink := up))
    else
      w.(pc := StageSettings(c), mem := w.mem.(uplink := Some(c.uplink)),
         st := w.st.(uplink := if up.udp == TriUnknown then up.(udp := w.st.uplink.udp) else up))
  }

  function SettingsSection(w: World, a: Answer): World
    requires w.pc.StageSettings?
  {
    var c := w.pc.c;
    var next := w.(pc := ReadState(c));
    if w.mem.evpn == Some(c.expressvpn) then next
    else if !a.ok then next.(st := Failed(w.st, "expressvpn_settings_failed"), h := Called(w.h))
    else next.(mem := w.mem.(evpn := Some(c.expressvpn)), h := Called(w.h))
  }

  predicate NeedsConnect(m: Memory, c: Config, conn: Connection) {
    || m.force.Some?
    || conn == ConnDisconnected || conn == ConnReconnecting || conn == ConnError
    || (m.conn.Some? && m.conn != Some(Want(c)) && conn == ConnConnected)
  }

  predicate MayRetry(m: Memory, now: nat) {
    m.failures < MAX_FAILURES && now > m.nextRetryAt
  }

  function DecideSection(w: World): World
    requires w.pc.Decide?
  {
    var c, conn := w.pc.c, w.pc.conn;
    if !w.pc.desired then
      w.(pc := if conn == ConnConnected || conn == ConnConnecting || conn == ConnReconnecting then Pc.Disconnecting(c) else Idle)
    else
      var forced := w.mem.force.Some?;
      var w' := w.(mem := w.mem.(force := None));
      if NeedsConnect(w.mem, c, conn) && (forced || MayRetry(w.mem, w.now))
      then w'.(pc := MarkConnecting(c, forced))
      else w'.(pc := Idle)
  }

  function MarkSection(w: World): World
    requires w.pc.MarkConnecting?
  {
    w.(pc := ReadUdp(w.pc.c, w.pc.forced),
       st := w.st.(conn := if w.st.conn == ConnConnected || w.st.conn == ConnReconnecting then ConnReconnecting else ConnConnecting))
  }

  function ReadUdpSection(w: World): World
    requires w.pc.ReadUdp?
  {
    var c := w.pc.c;
    w.(pc := if c.uplink.mode == "socks5" && c.uplink.socks5.udp == "auto" && w.st.uplink.udp == TriUnknown
             then AwaitUdp(c, w.pc.forced) else ChooseProtocol(c, w.pc.forced, w.st.uplink.udp))
  }

  function ProbeFinished(w: World): bool {
    w.driver.probeRun.Some? && w.driver.probeRun.value in w.h.probes
  }

  function AwaitUdpSection(w: World, a: Answer): World
    requires w.pc.AwaitUdp?
  {
    var v := U.AwaitedUdp(w.driver, w.st.uplink.udp, ProbeFinished(w) && a.inTime);
    w.(pc := if v == TriUnknown then ChooseProtocol(w.pc.c, w.pc.forced, TriUnknown) else PublishUdp(w.pc.c, w.pc.forced, v))
  }

  function PublishUdpSection(w: World): World
    requires w.pc.PublishUdp?
  {
    w.(pc := ChooseProtocol(w.pc.c, w.pc.forced, w.pc.udp), st := w.st.(uplink := w.st.uplink.(udp := w.pc.udp)))
  }

  function ProtocolSection(w: World): World
    requires w.pc.ChooseProtocol?
  {
    var c, forced := w.pc.c, w.pc.forced;
    var (effective, reason) := EffectiveProtocol(Requested(c), c.uplink.mode, w.pc.udp);
    w.(pc := Pc.Connecting(c, forced, effective, w.sessions),
       st := w.st.(protocol := ProtocolState(Requested(c), effective, reason)),
       h := Called(w.h).(attempts := w.h.attempts + [Attempt(w.now, forced, w.mem.failures, 0)]))
  }

  /** Records the CLI `connect`s of a finished attempt. */
  function Spent(attempts: seq<Attempt>, cli: nat): seq<Attempt> {
    if attempts == [] then [] else attempts[|attempts| - 1 := attempts[|attempts| - 1].(cli := cli)]
  }

  /** The driver's connect returns; nil only if the daemon has a session it did not have at the call. */
  function ConnectSection(w: World, a: Answer): World
    requires w.pc.Connecting?
  {
    var c := w.pc.c;
    var sessions := if a.sessions > w.sessions then a.sessions else w.sessions;
    var spent := w.h.(attempts := Spent(w.h.attempts, a.cli));
    if a.ok && sessions > w.pc.sessionsBefore then
      w.(pc := Idle, sessions := sessions,
         mem := w.mem.(failures := 0, nextRetryAt := ZERO_TIME, conn := Some(Want(c))),
         st := w.st.(conn := ConnConnected, lastError := None,
                     location := if c.expressvpn.location != "" then c.expressvpn.location else w.st.location),
         h := spent.(sessionSince := true, attempts := [], failTimes := [], crossing := false))
    else
      var n := w.mem.failures + 1;
      w.(pc := AfterFailure(c, n, a.code), sessions := sessions,
         mem := w.mem.(failures := n, nextRetryAt := if n < MAX_FAILURES then w.now + Backoff(n) else w.mem.nextRetryAt),
         h := spent.(failTimes := w.h.failTimes + [w.now]))
  }

  /** Stops the daemon's own retries and publishes the error; the disconnect's result is ignored. */
  function AfterFailureSection(w: World): World
    requires w.pc.AfterFailure?
  {
    w.(pc := Idle, h := Called(w.h),
       st := Failed(w.st, if w.pc.n >= MAX_FAILURES then "reconnect_exhausted" else w.pc.code).(conn := ConnError))
  }

  function DisconnectSection(w: World, a: Answer): World
    requires w.pc.Disconnecting?
  {
    if !a.ok then w.(pc := Idle, st := Failed(w.st, "disconnect_failed"), h := Called(w.h))
    else w.(pc := Idle, mem := w.mem.(conn := None), st := w.st.(conn := ConnDisconnected), h := Called(w.h))
  }

  /** The kill switch and the uplink. */
  predicate InLayers(pc: Pc) {
    pc.ReadDesired? || pc.StageKillswitch? || pc.StageUplink? || pc.ApplyingUplink? || pc.UplinkApplied?
  }

  function LayerSection(w: World, a: Answer): World
    requires InLayers(w.pc)
  {
    match w.pc
    case ReadDesired(c) => w.(pc := StageKillswitch(c, w.st.desired))
    case StageKillswitch(_, _) => KillswitchSection(w, a)
    case StageUplink(_, _) => UplinkSection(w)
    case ApplyingUplink(_) => ApplySection(w, a)
    case UplinkApplied(_, _, _) => PublishUplinkSection(w)
  }

  /** From the settings to the decision, and disconnecting. */
  predicate InDecision(pc: Pc) {
    pc.Idle? || pc.StageSettings? || pc.ReadState? || pc.Decide? || pc.Disconnecting?
  }

  function DecisionSection(w: World, a: Answer): World
    requires InDecision(w.pc)
  {
    match w.pc
    case Idle => w.(pc := ReadDesired(w.cfg))
    case StageSettings(_) => SettingsSection(w, a)
    case ReadState(c) => w.(pc := Decide(c, w.st.desired, w.st.conn))
    case Decide(_, _, _) => DecideSection(w)
    case Disconnecting(_) => DisconnectSection(w, a)
  }

  /** Connecting, from the announcement to the outcome. */
  function ConnectionSection(w: World, a: Answer): World
    requires !InLayers(w.pc) && !InDecision(w.pc)
  {
    match w.pc
    case MarkConnecting(_, _) => MarkSection(w)
    case ReadUdp(_, _) => ReadUdpSection(w)
    case AwaitUdp(_, _) => AwaitUdpSection(w, a)
    case PublishUdp(_, _, _) => PublishUdpSection(w)
    case ChooseProtocol(_, _, _) => ProtocolSection(w)
    case Connecting(_, _, _, _) => ConnectSection(w, a)
    case AfterFailure(_, _, _) => AfterFailureSection(w)
  }

  function Section(w: World, a: Answer): World {
    if InLayers(w.pc) then LayerSection(w, a)
    else if InDecision(w.pc) then DecisionSection(w, a)
    else ConnectionSection(w, a)
  }

  // ---------- everything else that runs ----------

  function Polled(st: State, polled: Connection): State {
    if st.desired && st.conn == ConnConnected && polled != ConnConnected then st.(conn := ConnReconnecting)
    else if st.conn == ConnDisconnected && polled == ConnConnected then st.(conn := ConnConnected)
    else st
  }

  function Probed(w: World, run: nat, v: Tri): World {
    if run >= w.driver.nextProbe || run in w.h.probes then w
    else
      w.(h := w.h.(probes := w.h.probes[run := v]),
         st := if w.driver.probeRun == Some(run) && w.st.uplink.mode == "socks5"
               then w.st.(uplink := w.st.uplink.(udp := v)) else w.st)
  }

  function Step(w: World, e: Event): World {
    match e
    case Pass(a) => Section(w, a)
    case Tick(ms) => w.(now := w.now + ms)
    case SetConfig(c) => if Valid(c) then w.(cfg := c) else w
    case Supervise(polled) => w.(st := Polled(w.st, polled))
    case DaemonReady(polled) => w.(st := w.st.(conn := polled))
    case DaemonNotReady => w.(st := Failed(w.st, "daemon_not_ready").(conn := ConnError))
    case Autoconnect => w.(st := w.st.(desired := true))
    case DaemonCrash => if w.st.desired then w.(st := w.st.(conn := ConnReconnecting)) else w
    case SessionsGrow(n) => w.(sessions := w.sessions + n)
    case WantConnected =>
      w.(st := w.st.(desired := true, lastError := None, conn := if w.st.conn == ConnError then ConnDisconnected else w.st.conn))
    case WantDisconnected => w.(st := w.st.(desired := false))
    case LoggedOut => w.(st := w.st.(desired := false, conn := ConnDisconnected))
    case MarkReconnecting => w.(st := w.st.(conn := ConnReconnecting))
    case ForceReconnect => w.(mem := w.mem.(force := Some(UserRequest)))
    case ResetRetries =>
      w.(mem := w.mem.(failures := 0, nextRetryAt := ZERO_TIME),
         h := w.h.(attempts := [], failTimes := [], crossing := w.pc.Connecting?))
    case ProbeDone(run, supported) => Probed(w, run, if supported then TriTrue else TriFalse)
    case EngineDies(drops) => w.(driver := U.Step(w.driver, U.EngineDies(drops)))
  }

  const CONNECTS_PER_CALL := 3

  /** The drivers keep their own contracts: one connect issues at most three CLI `connect`s (XvpnManager.Manager.Connect). */
  predicate KeepsContract(e: Event) {
    e.Pass? ==> e.a.cli <= CONNECTS_PER_CALL
  }

  function Run(w: World, es: seq<Event>): World
    decreases |es|
  {
    if es == [] then w else Run(Step(w, es[0]), es[1..])
  }

  // ---------- one uninterrupted pass ----------

  predicate Goes(e: Event) {
    (e.Pass? || e.Tick? || e.SessionsGrow?) && KeepsContract(e)
  }

  /** Part of one uninterrupted pass: its sections, with only time and daemon sessions passing in between, and the end of
      the pass at most at the very end. The drivers keep their contracts. */
  ghost predicate InPass(w: World, es: seq<Event>)
    decreases |es|
  {
    es != [] ==> !w.pc.Idle? && Goes(es[0]) && InPass(Step(w, es[0]), es[1..])
  }

  /** A whole pass, from Idle to Idle. */
  ghost predicate WholePass(w: World, es: seq<Event>) {
    w.pc.Idle? && es != [] && es[0].Pass? && KeepsContract(es[0]) && InPass(Step(w, es[0]), es[1..]) && Run(w, es).pc.Idle?
  }

  lemma RunCons(w: World, es: seq<Event>)
    requires es != []
    ensures Run(w, es) == Run(Step(w, es[0]), es[1..])
  {
  }

  lemma RunNothing(w: World, es: seq<Event>)
    requires es == []
    ensures Run(w, es) == w
  {
  }

  lemma {:induction false} RunAppend(w: World, es: seq<Event>, fs: seq<Event>)
    ensures Run(w, es + fs) == Run(Run(w, es), fs)
    decreases |es|
  {
    hide Step;
    if es == [] {
      assert es + fs == fs;
    } else {
      assert (es + fs)[1..] == es[1..] + fs;
      RunAppend(Step(w, es[0]), es[1..], fs);
    }
  }

  function Start(cfg: Config, o: U.Original): World {
    World(cfg,
          State(false, ConnDisconnected, "", ProtocolState("auto", "", ""), UplinkState("host", UplinkUnknown, TriUnknown, ""), false, None),
          Memory(None, None, None, None, 0, ZERO_TIME, None), Idle, U.Fresh(o), 0, 0,
          History(None, false, 0, false, [], [], false, map[], 0))
  }
}
