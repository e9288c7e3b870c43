/** The reconciler as the agent runs it. Each method is proved against the sections of ControlLoop: a whole pass is a run of
    them, with only time and daemon sessions passing in between. */
module Reconciler {
  import opened Wrappers
  import opened Config
  import opened Daemon
  import opened AgentState
  import opened ControlLoop
  import U = UplinkDriver
  import UplinkManager
  import XvpnManager

  /** The CLI `connect`s that the answers of a run report. */
  function CliSpent(es: seq<Event>): nat
    decreases |es|
  {
    if es == [] then 0 else (if es[0].Pass? then es[0].a.cli else 0) + CliSpent(es[1..])
  }

  lemma {:induction false} RunConcat(w: World, es: seq<Event>, fs: seq<Event>)
    ensures Run(w, es + fs) == Run(Run(w, es), fs)
    ensures InPass(w, es) && InPass(Run(w, es), fs) ==> InPass(w, es + fs)
    ensures CliSpent(es + fs) == CliSpent(es) + CliSpent(fs)
    decreases |es|
  {
    hide Step;
    if es == [] {
      assert es + fs == fs;
    } else {
      assert (es + fs)[1..] == es[1..] + fs;
      RunConcat(Step(w, es[0]), es[1..], fs);
    }
  }

  lemma RunOne(w: World, e: Event)
    ensures Run(w, [e]) == Step(w, e)
    ensures InPass(w, [e]) <==> !w.pc.Idle? && Goes(e)
    ensures CliSpent([e]) == if e.Pass? then e.a.cli else 0
  {
    hide Step;
    assert [e][1..] == [];
    assert Run(Step(w, e), []) == Step(w, e) && InPass(Step(w, e), []);
  }

  /** One more section at the end of a run. */
  lemma RunSection(w: World, es: seq<Event>, a: Answer)
    ensures Run(w, es + [Pass(a)]) == Section(Run(w, es), a)
    ensures (es == [] || InPass(w, es)) && !Run(w, es).pc.Idle? && a.cli <= CONNECTS_PER_CALL ==> InPass(w, es + [Pass(a)])
    ensures CliSpent(es + [Pass(a)]) == CliSpent(es) + a.cli
  {
    hide Section, Run;
    assert es == [] ==> InPass(w, es);
    RunConcat(w, es, [Pass(a)]);
    RunOne(Run(w, es), Pass(a));
  }

  /** The first section of a run. */
  lemma RunFirst(w: World, a: Answer)
    ensures Run(w, [Pass(a)]) == Section(w, a)
    ensures !w.pc.Idle? && a.cli <= CONNECTS_PER_CALL ==> InPass(w, [Pass(a)])
    ensures CliSpent([Pass(a)]) == a.cli
  {
    hide Section;
    RunOne(w, Pass(a));
  }

  ghost function Passing(w: World, now: nat, sessions: nat): seq<Event>
    requires now >= w.now && sessions >= w.sessions
  {
    [Tick(now - w.now), SessionsGrow(sessions - w.sessions)]
  }

  lemma RunPassing(w: World, now: nat, sessions: nat)
    requires now >= w.now && sessions >= w.sessions
    ensures !w.pc.Idle? ==> InPass(w, Passing(w, now, sessions))
    ensures CliSpent(Passing(w, now, sessions)) == 0
    ensures Run(w, Passing(w, now, sessions)) == w.(now := now, sessions := sessions)
  {
    var tick, grow := Tick(now - w.now), SessionsGrow(sessions - w.sessions);
    assert Passing(w, now, sessions) == [tick] + [grow];
    RunConcat(w, [tick], [grow]);
    RunOne(w, tick);
    RunOne(Step(w, tick), grow);
  }

  function ErrorCode(e: XvpnManager.DriverError): string {
    match e
    case DisconnectFailed => "disconnect_failed"
    case UnknownLocation => "unknown_location"
    case NotLoggedIn => "not_logged_in"
    case DaemonNotReady => "daemon_not_ready"
    case CliFailed => "cli_failed"
    case ConnectFailed => "connect_failed"
    case Cancelled => "connect_failed"
  }

  const NO_ANSWER := Answer(true, "", 0, 0, U.Answer(None, true, true, true, true, 3, true), true)

  class Reconciler {
    var cfg: Config
    const st: UplinkManager.Snapshot
    const up: UplinkManager.Manager
    const xvpn: XvpnManager.Manager

    var appliedKS: Option<Uplink>
    var appliedUplink: Option<Uplink>
    var appliedEVPN: Option<ExpressVPN>
    var appliedConn: Option<ConnSpec>
    var connectFailures: nat
    var nextRetryAt: int
    var forceReason: Option<Reason>
    ghost var h: History

    constructor (cfg: Config, st: UplinkManager.Snapshot, up: UplinkManager.Manager, xvpn: XvpnManager.Manager)
      requires up.st == st && xvpn.Valid() && up.done == {}
      ensures Valid() && this.cfg == cfg && this.st == st && this.up == up && this.xvpn == xvpn
      ensures Mem() == Start(cfg, U.Original(map[], "", "")).mem
      ensures forall o | st.cur == Start(cfg, o).st && up.Abs() == U.Fresh(o) && xvpn.ctl.daemon.sessions == 0 && xvpn.ctl.now == 0 ::
                At(Idle) == Start(cfg, o)
    {
      this.cfg, this.st, this.up, this.xvpn := cfg, st, up, xvpn;
      appliedKS, appliedUplink, appliedEVPN, appliedConn := None, None, None, None;
      connectFailures, nextRetryAt, forceReason := 0, ZERO_TIME, None;
      h := History(None, false, 0, false, [], [], false, map[], 0);
    }

    ghost predicate Valid()
      reads this, up
    {
      up.st == st && xvpn.Valid() && h.probes.Keys == up.done
    }

    ghost function Mem(): Memory
      reads this
    {
      Memory(appliedKS, appliedUplink, appliedEVPN, appliedConn, connectFailures, nextRetryAt, forceReason)
    }

    /** How many CLI `connect`s were ever issued. */
    ghost function Issued(): nat
      reads xvpn.ctl
    {
      |XvpnManager.Connects(xvpn.ctl.journal)|
    }

    /** The world with the running pass at `pc`. */
    ghost function At(pc: Pc): World
      reads this, st, up, up.box, xvpn.ctl
    {
      World(cfg, st.cur, Mem(), pc, up.Abs(), xvpn.ctl.daemon.sessions, xvpn.ctl.now, h)
    }

    // ---------- what other goroutines call ----------

    method ForgetConnection(reason: Reason, ghost pc: Pc)
      modifies this`forceReason
      ensures forceReason == Some(reason)
      ensures reason == UserRequest ==> At(pc) == Step(old(At(pc)), ForceReconnect)
    {
      forceReason := Some(reason);
    }

    method ResetRetries(ghost pc: Pc)
      modifies this`connectFailures, this`nextRetryAt, this`h
      ensures At(pc) == Step(old(At(pc)), Event.ResetRetries)
    {
      connectFailures := 0;
      nextRetryAt := ZERO_TIME;
      h := h.(attempts := [], failTimes := [], crossing := pc.Connecting?);
    }

    /** The user's connect, after any change of location; then the caller waits for the snapshot to say so. */
    method ConnectAction(ghost pc: Pc)
      modifies this`connectFailures, this`nextRetryAt, this`h, st
      ensures At(pc) == Step(Step(old(At(pc)), WantConnected), Event.ResetRetries)
    {
      st.cur := st.cur.(desired := true, lastError := None, conn := if st.cur.conn == ConnError then ConnDisconnected else st.cur.conn);
      ResetRetries(pc);
    }

    /** The user's reconnect: an error unless a connection is wanted. */
    method ReconnectAction(ghost pc: Pc) returns (ok: bool)
      modifies this`connectFailures, this`nextRetryAt, this`forceReason, this`h, st
      ensures ok == old(st.cur).desired
      ensures At(pc) == if ok then Step(Step(Step(old(At(pc)), MarkReconnecting), ForceReconnect), Event.ResetRetries) else old(At(pc))
    {
      ok := st.cur.desired;
      if ok {
        st.cur := st.cur.(conn := ConnReconnecting);
        ForgetConnection(UserRequest, pc);
        ResetRetries(pc);
      }
    }

    /** One supervision poll; true when it wakes the reconciler. */
    method SuperviseOnce(polled: Option<Connection>, ghost pc: Pc) returns (wakes: bool)
      modifies st
      ensures At(pc) == if polled.Some? then Step(old(At(pc)), Supervise(polled.value)) else old(At(pc))
      ensures wakes <==> polled.Some? && old(st.cur).desired && old(st.cur).conn == ConnConnected && polled.value != ConnConnected
    {
      wakes := false;
      if polled.None? {
        return;
      }
      if st.cur.desired && st.cur.conn == ConnConnected && polled.value != ConnConnected {
        st.cur := st.cur.(conn := ConnReconnecting);
        wakes := true;
      } else if st.cur.conn == ConnDisconnected && polled.value == ConnConnected {
        st.cur := st.cur.(conn := ConnConnected);
      }
    }

    /** The goroutine of a finished probe: its result counts unless the uplink was rebuilt in the meantime. */
    method ProbeFinishes(run: nat, supported: bool, ghost pc: Pc)
      requires Valid() && run < up.nextProbe && run !in up.done
      modifies this`h, st, up
      ensures Valid() && run in up.done
      ensures At(pc) == Step(old(At(pc)), ProbeDone(run, supported))
    {
      var current := up.PublishProbe(run, supported);
      h := h.(probes := h.probes[run := if supported then TriTrue else TriFalse]);
    }

    // ---------- the stages of a pass ----------

    method Fail(code: string)
      modifies st
      ensures st.cur == Failed(old(st.cur), code)
    {
      st.cur := st.cur.(lastError := Some(code));
    }

    /** A driver call that only takes time. */
    method Elapse(ghost pc: Pc) returns (ghost es: seq<Event>)
      requires !pc.Idle?
      modifies xvpn.ctl`daemon, xvpn.ctl`now
      ensures InPass(old(At(pc)), es) && At(pc) == Run(old(At(pc)), es)
      ensures CliSpent(es) == 0
    {
      ghost var w := At(pc);
      xvpn.ctl.Elapse(0);
      DriftKeepsSessions(old(xvpn.ctl.daemon), xvpn.ctl.daemon);
      es := Passing(w, xvpn.ctl.now, xvpn.ctl.daemon.sessions);
      RunPassing(w, xvpn.ctl.now, xvpn.ctl.daemon.sessions);
    }

    method KillswitchStage(c: Config, ghost wasDesired: bool) returns (ok: bool, ghost es: seq<Event>)
      requires Valid()
      modifies this, st, xvpn.ctl`daemon, xvpn.ctl`now
      ensures Valid() && InPass(old(At(StageKillswitch(c, wasDesired))), es)
      ensures At(if ok then StageUplink(c, wasDesired) else Idle) == Run(old(At(StageKillswitch(c, wasDesired))), es)
      ensures CliSpent(es) == 0
    {
      ghost var pc := StageKillswitch(c, wasDesired);
      ghost var w0 := At(pc);
      es := [];
      ok := true;
      if appliedKS != Some(c.uplink) {
        es := Elapse(pc);
        ok := *;
        if !ok {
          Fail("killswitch_failed");
          st.cur := st.cur.(ksActive := false);
          h := Called(h);
        } else {
          appliedKS := Some(c.uplink);
          st.cur := st.cur.(ksActive := true);
          h := Called(h).(ksOk := Some(c.uplink));
        }
      }
      ghost var a := NO_ANSWER.(ok := ok);
      RunSection(w0, es, a);
      es := es + [Pass(a)];
    }

    method UplinkStage(c: Config, wasDesired: bool) returns (ok: bool, ghost es: seq<Event>)
      requires Valid()
      modifies this, st, up, up.box, xvpn.ctl`daemon, xvpn.ctl`now
      ensures Valid() && InPass(old(At(StageUplink(c, wasDesired))), es)
      ensures At(if ok then StageSettings(c) else Idle) == Run(old(At(StageUplink(c, wasDesired))), es)
      ensures CliSpent(es) == 0
    {
      ghost var w0 := At(StageUplink(c, wasDesired));
      ghost var a := NO_ANSWER;
      RunFirst(w0, a);
      es := [Pass(a)];
      ok := true;
      if appliedUplink != Some(c.uplink) {
        st.cur := st.cur.(uplink := UplinkState(c.uplink.mode, UplinkUnknown, TriUnknown, "applying"),
                          conn := if st.cur.desired && st.cur.conn == ConnConnected then ConnReconnecting else st.cur.conn);
        if wasDesired && appliedUplink.Some? {
          ForgetConnection(UplinkChanged, StageUplink(c, wasDesired));
        }
        h := Called(h).(sessionSince := false, sessionsAtApply := xvpn.ctl.daemon.sessions);
        assert At(ApplyingUplink(c)) == Run(w0, es);
        ghost var fs;
        ok, fs := ApplyUplink(c);
        RunConcat(w0, es, fs);
        es := es + fs;
      }
    }

    method ApplyUplink(c: Config) returns (ok: bool, ghost es: seq<Event>)
      requires Valid()
      modifies this, st, up, up.box, xvpn.ctl`daemon, xvpn.ctl`now
      ensures Valid() && InPass(old(At(ApplyingUplink(c))), es)
      ensures At(if ok then StageSettings(c) else Idle) == Run(old(At(ApplyingUplink(c))), es)
      ensures CliSpent(es) == 0
    {
      hide U.Apply;
      ghost var w0 := At(ApplyingUplink(c));
      es := Elapse(ApplyingUplink(c));
      var answer := AnyUplinkAnswer();
      var us;
      us, ok := up.Apply(c.uplink, answer);
      h := h.(lastApplyFailed := !ok);
      ghost var a := NO_ANSWER.(uplink := answer);
      RunSection(w0, es, a);
      es := es + [Pass(a)];
      assert At(UplinkApplied(c, us, ok)) == Run(w0, es);
      if !ok {
        Fail("uplink_failed");
        st.cur := st.cur.(uplink := us);
      } else {
        appliedUplink := Some(c.uplink);
        var udp := st.cur.uplink.udp;
        st.cur := st.cur.(uplink := if us.udp == TriUnknown then us.(udp := udp) else us);
      }
      RunSection(w0, es, a);
      es := es + [Pass(a)];
    }

    method AnyUplinkAnswer() returns (a: U.Answer)
    {
      a := *;
    }

    method SettingsStage(c: Config) returns (ghost es: seq<Event>)
      requires Valid()
      modifies this, st, xvpn.ctl`daemon, xvpn.ctl`now
      ensures Valid() && InPass(old(At(StageSettings(c))), es)
      ensures At(ReadState(c)) == Run(old(At(StageSettings(c))), es)
      ensures CliSpent(es) == 0
    {
      ghost var w0 := At(StageSettings(c));
      es := [];
      var ok := true;
      if appliedEVPN != Some(c.expressvpn) {
        es := Elapse(StageSettings(c));
        ok := *;
        if !ok {
          Fail("expressvpn_settings_failed");
        } else {
          appliedEVPN := Some(c.expressvpn);
        }
        h := Called(h);
      }
      ghost var a := NO_ANSWER.(ok := ok);
      RunSection(w0, es, a);
      es := es + [Pass(a)];
    }

    /** Whether to connect now, and whether by force; clears the force. */
    method DecideToConnect(c: Config, conn: Connection) returns (go: bool, forced: bool, ghost es: seq<Event>)
      requires Valid()
      modifies this`forceReason
      ensures InPass(old(At(Decide(c, true, conn))), es)
      ensures At(if go then MarkConnecting(c, forced) else Idle) == Run(old(At(Decide(c, true, conn))), es)
      ensures CliSpent(es) == 0
    {
      ghost var w0 := At(Decide(c, true, conn));
      var reason := forceReason;
      forceReason := None;
      var exhausted := connectFailures >= MAX_FAILURES;
      var retryDue := xvpn.ctl.now > nextRetryAt;
      forced := reason.Some?;
      var needsConnect := forced || conn == ConnDisconnected || conn == ConnReconnecting || conn == ConnError
        || (appliedConn.Some? && appliedConn.value != Want(c) && conn == ConnConnected);
      go := needsConnect && (forced || (!exhausted && retryDue));
      RunFirst(w0, NO_ANSWER);
      es := [Pass(NO_ANSWER)];
    }

    /** Announces the connection and reads what is known about UDP. */
    method Announce(c: Config, ghost forced: bool) returns (udp: Tri, await: bool, ghost es: seq<Event>)
      requires Valid()
      modifies st
      ensures InPass(old(At(MarkConnecting(c, forced))), es)
      ensures At(if await then AwaitUdp(c, forced) else ChooseProtocol(c, forced, udp)) == Run(old(At(MarkConnecting(c, forced))), es)
      ensures await ==> udp == TriUnknown
      ensures CliSpent(es) == 0
    {
      hide LayerSection, DecisionSection, Step, Run, InPass, CliSpent;
      ghost var w0 := At(MarkConnecting(c, forced));
      if st.cur.conn == ConnConnected {
        st.cur := st.cur.(conn := ConnReconnecting);
      } else if st.cur.conn != ConnReconnecting {
        st.cur := st.cur.(conn := ConnConnecting);
      }
      RunFirst(w0, NO_ANSWER);
      es := [Pass(NO_ANSWER)];
      assert At(ReadUdp(c, forced)) == Run(w0, es);
      udp := st.cur.uplink.udp;
      await := c.uplink.mode == "socks5" && c.uplink.socks5.udp == "auto" && udp == TriUnknown;
      RunSection(w0, es, NO_ANSWER);
      es := es + [Pass(NO_ANSWER)];
    }

    /** Waits for the current uplink's probe, and publishes what it learns. */
    method AwaitProbe(c: Config, ghost forced: bool) returns (udp: Tri, ghost es: seq<Event>)
      requires Valid()
      modifies st, xvpn.ctl`daemon, xvpn.ctl`now
      ensures InPass(old(At(AwaitUdp(c, forced))), es)
      ensures At(ChooseProtocol(c, forced, udp)) == Run(old(At(AwaitUdp(c, forced))), es)
      ensures CliSpent(es) == 0
    {
      hide LayerSection, DecisionSection, U.AwaitedUdp, Step, Run;
      ghost var w0 := At(AwaitUdp(c, forced));
      es := Elapse(AwaitUdp(c, forced));
      var inTime: bool := *;
      udp := up.WaitUDP(inTime);
      ghost var a := NO_ANSWER.(inTime := inTime);
      RunSection(w0, es, a);
      es := es + [Pass(a)];
      if udp != TriUnknown {
        assert At(PublishUdp(c, forced, udp)) == Run(w0, es);
        st.SetUdp(udp);
        RunSection(w0, es, a);
        es := es + [Pass(a)];
      }
    }

    /** Chooses the protocol. */
    method PublishProtocol(c: Config, ghost forced: bool, udp: Tri) returns (effective: string, ghost es: seq<Event>)
      requires Valid()
      modifies this`h, st
      ensures Valid() && InPass(old(At(ChooseProtocol(c, forced, udp))), es)
      ensures At(Pc.Connecting(c, forced, effective, xvpn.ctl.daemon.sessions)) == Run(old(At(ChooseProtocol(c, forced, udp))), es)
      ensures CliSpent(es) == 0
      ensures st.cur.protocol.effective == effective
    {
      hide LayerSection, DecisionSection, EffectiveProtocol, Requested;
      ghost var w0 := At(ChooseProtocol(c, forced, udp));
      var (chosen, reason) := EffectiveProtocol(Requested(c), c.uplink.mode, udp);
      effective := chosen;
      st.cur := st.cur.(protocol := ProtocolState(Requested(c), effective, reason));
      h := Called(h).(attempts := h.attempts + [Attempt(xvpn.ctl.now, forced, connectFailures, 0)]);
      RunFirst(w0, NO_ANSWER);
      es := [Pass(NO_ANSWER)];
    }

    /** The commands beyond `was` open sessions only at `location` and under `protocol`, in a daemon that is disconnected. */
    ghost predicate Commanded(was: seq<XvpnManager.Issued>, journal: seq<XvpnManager.Issued>, location: string, protocol: string) {
      XvpnManager.Extends(was, journal) && XvpnManager.AllOpening(journal[|was|..], location, protocol)
    }

    lemma DisconnectOpensNothing(was: seq<XvpnManager.Issued>, mid: seq<XvpnManager.Issued>, journal: seq<XvpnManager.Issued>,
                                 location: string, protocol: string)
      requires Commanded(was, mid, location, protocol) && ToldToDisconnect(mid, journal)
      ensures Commanded(was, journal, location, protocol)
    {
      assert journal[|was|..] == mid[|was|..] + [journal[|mid|]];
    }

    /** The driver's connect: nil means a session that was not there at the call. */
    method CallDriver(location: string, effective: string, ghost pc: Pc)
      returns (err: Option<XvpnManager.DriverError>, ghost cli: int, ghost es: seq<Event>)
      requires Valid() && !pc.Idle?
      modifies xvpn`connectedAt, xvpn.ctl
      ensures InPass(old(At(pc)), es) && At(pc) == Run(old(At(pc)), es)
      ensures err.None? ==> xvpn.ctl.daemon.sessions > old(xvpn.ctl.daemon.sessions)
      ensures cli == Issued() - old(Issued()) && 0 <= cli <= CONNECTS_PER_CALL && CliSpent(es) == 0
      ensures Commanded(old(xvpn.ctl.journal), xvpn.ctl.journal, location, effective)
      ensures err.None? ==> XvpnManager.NewSession(xvpn.ctl.journal, xvpn.ctl.polled, location, effective)
    {
      hide XvpnManager.NewSession, XvpnManager.AllOpening, XvpnManager.Connects, XvpnManager.Extends;
      ghost var w := At(pc);
      ghost var journal := xvpn.ctl.journal;
      err := xvpn.Connect(location, effective);
      cli := |XvpnManager.Connects(xvpn.ctl.journal)| - |XvpnManager.Connects(journal)|;
      es := Passing(w, xvpn.ctl.now, xvpn.ctl.daemon.sessions);
      RunPassing(w, xvpn.ctl.now, xvpn.ctl.daemon.sessions);
    }

    /** Chooses the protocol and connects. */
    method Establish(c: Config, ghost forced: bool, udp: Tri) returns (ghost es: seq<Event>)
      requires Valid()
      modifies this, st, xvpn`connectedAt, xvpn.ctl
      ensures Valid() && InPass(old(At(ChooseProtocol(c, forced, udp))), es)
      ensures At(Idle) == Run(old(At(ChooseProtocol(c, forced, udp))), es)
      ensures CliSpent(es) == Issued() - old(Issued())
      ensures Commanded(old(xvpn.ctl.journal), xvpn.ctl.journal, c.expressvpn.location, st.cur.protocol.effective)
      ensures st.cur.conn != ConnError ==>
                XvpnManager.NewSession(xvpn.ctl.journal, xvpn.ctl.polled, c.expressvpn.location, st.cur.protocol.effective)
    {
      hide LayerSection, DecisionSection, Step, Run, InPass, CliSpent, Commanded, ToldToDisconnect, XvpnManager.NewSession;
      ghost var w0 := At(ChooseProtocol(c, forced, udp));
      var effective;
      effective, es := PublishProtocol(c, forced, udp);
      ghost var pc := Pc.Connecting(c, forced, effective, xvpn.ctl.daemon.sessions);
      var err;
      ghost var cli, fs;
      err, cli, fs := CallDriver(c.expressvpn.location, effective, pc);
      RunConcat(w0, es, fs);
      es := es + fs;
      ghost var w := At(pc);
      ghost var a := NO_ANSWER.(ok := err.None?, code := if err.None? then "" else ErrorCode(err.value), cli := cli);
      RunSection(w0, es, a);
      es := es + [Pass(a)];
      assert Run(w0, es) == ConnectSection(w, a);
      if err.Some? {
        ghost var journal := xvpn.ctl.journal;
        fs := OnConnectFailure(c, err.value, w, a);
        DisconnectOpensNothing(old(xvpn.ctl.journal), journal, xvpn.ctl.journal, c.expressvpn.location, effective);
        RunConcat(w0, es, fs);
        es := es + fs;
      } else {
        Connected(c);
      }
    }

    /** Publishes the success and starts a new retry epoch. */
    method Connected(c: Config)
      modifies this, st
      ensures At(Idle) == old(At(Idle)).(
          mem := old(Mem()).(failures := 0, nextRetryAt := ZERO_TIME, conn := Some(Want(c))),
          st := old(st.cur).(conn := ConnConnected, lastError := None,
                             location := if c.expressvpn.location != "" then c.expressvpn.location else old(st.cur).location),
          h := old(h).(sessionSince := true, attempts := [], failTimes := [], crossing := false))
    {
      connectFailures := 0;
      nextRetryAt := ZERO_TIME;
      appliedConn := Some(Want(c));
      st.cur := st.cur.(conn := ConnConnected, lastError := None,
                        location := if c.expressvpn.location != "" then c.expressvpn.location else st.cur.location);
      h := h.(sessionSince := true, attempts := [], failTimes := [], crossing := false);
    }

    /** Counts the failure, schedules the retry, stops the daemon's own retries and publishes the error. */
    method OnConnectFailure(c: Config, err: XvpnManager.DriverError, ghost w: World, ghost a: Answer) returns (ghost es: seq<Event>)
      requires Valid() && w.pc.Connecting? && w == At(w.pc) && w.pc.c == c
      requires !a.ok && a.code == ErrorCode(err) && a.sessions == 0
      modifies this, st, xvpn`connectedAt, xvpn.ctl
      ensures Valid() && InPass(ConnectSection(w, a), es)
      ensures At(Idle) == Run(ConnectSection(w, a), es)
      ensures CliSpent(es) == Issued() - old(Issued())
      ensures ToldToDisconnect(old(xvpn.ctl.journal), xvpn.ctl.journal)
      ensures st.cur.protocol == old(st.cur).protocol && st.cur.conn == ConnError
    {
      hide Section;
      connectFailures := connectFailures + 1;
      var n := connectFailures;
      if n < MAX_FAILURES {
        nextRetryAt := xvpn.ctl.now + Backoff(n);
      }
      h := h.(attempts := Spent(h.attempts, a.cli), failTimes := h.failTimes + [xvpn.ctl.now]);
      ghost var w1 := At(AfterFailure(c, n, ErrorCode(err)));
      assert w1 == ConnectSection(w, a);
      es := PublishFailure(c, n, ErrorCode(err));
    }

    method PublishFailure(c: Config, n: nat, code: string) returns (ghost es: seq<Event>)
      requires Valid()
      modifies this`h, st, xvpn`connectedAt, xvpn.ctl
      ensures Valid() && InPass(old(At(AfterFailure(c, n, code))), es)
      ensures At(Idle) == Run(old(At(AfterFailure(c, n, code))), es)
      ensures CliSpent(es) == Issued() - old(Issued())
      ensures ToldToDisconnect(old(xvpn.ctl.journal), xvpn.ctl.journal)
      ensures st.cur.protocol == old(st.cur).protocol && st.cur.conn == ConnError
    {
      hide LayerSection, DecisionSection, Step, Run, InPass, CliSpent, ConnectSection, ProtocolSection, AwaitUdpSection, PublishUdpSection,
           XvpnManager.Connects, XvpnManager.Caused;
      ghost var w1 := At(AfterFailure(c, n, code));
      var ignored := xvpn.DisconnectAndWait();
      es := Passing(w1, xvpn.ctl.now, xvpn.ctl.daemon.sessions);
      RunPassing(w1, xvpn.ctl.now, xvpn.ctl.daemon.sessions);
      Fail(if n >= MAX_FAILURES then "reconnect_exhausted" else code);
      st.cur := st.cur.(conn := ConnError);
      h := Called(h);
      RunSection(w1, es, NO_ANSWER);
      es := es + [Pass(NO_ANSWER)];
    }

    /** The daemon was told to disconnect, and nothing else. */
    ghost predicate ToldToDisconnect(was: seq<XvpnManager.Issued>, journal: seq<XvpnManager.Issued>) {
      XvpnManager.Extends(was, journal) && |journal| == |was| + 1 && journal[|was|].command == XvpnManager.Disconnect
    }

    method DisconnectStage(c: Config) returns (ghost es: seq<Event>)
      requires Valid()
      modifies this, st, xvpn`connectedAt, xvpn.ctl
      ensures Valid() && InPass(old(At(Pc.Disconnecting(c))), es)
      ensures At(Idle) == Run(old(At(Pc.Disconnecting(c))), es)
      ensures CliSpent(es) == Issued() - old(Issued())
      ensures ToldToDisconnect(old(xvpn.ctl.journal), xvpn.ctl.journal)
      ensures st.cur.conn != old(st.cur).conn ==> st.cur.conn == ConnDisconnected && xvpn.ctl.daemon.state == Disconnected
    {
      hide LayerSection, ConnectionSection, Step, Run;
      ghost var w0 := At(Pc.Disconnecting(c));
      var err := xvpn.DisconnectAndWait();
      es := Passing(w0, xvpn.ctl.now, xvpn.ctl.daemon.sessions);
      RunPassing(w0, xvpn.ctl.now, xvpn.ctl.daemon.sessions);
      h := Called(h);
      if err.Some? {
        Fail("disconnect_failed");
      } else {
        appliedConn := None;
        st.cur := st.cur.(conn := ConnDisconnected);
      }
      ghost var a := NO_ANSWER.(ok := err.None?);
      RunSection(w0, es, a);
      es := es + [Pass(a)];
    }

    method ConnectionStage(c: Config) returns (ghost es: seq<Event>)
      requires Valid()
      modifies this, st, xvpn`connectedAt, xvpn.ctl
      ensures Valid() && InPass(old(At(ReadState(c))), es)
      ensures At(Idle) == Run(old(At(ReadState(c))), es)
      ensures CliSpent(es) == Issued() - old(Issued())
    {
      hide LayerSection, ConnectionSection, NeedsConnect, MayRetry;
      ghost var w0 := At(ReadState(c));
      var s := st.cur;
      RunFirst(w0, NO_ANSWER);
      es := [Pass(NO_ANSWER)];
      assert At(Decide(c, s.desired, s.conn)) == Run(w0, es);
      ghost var fs;
      if !s.desired {
        RunSection(w0, es, NO_ANSWER);
        es := es + [Pass(NO_ANSWER)];
        if s.conn == ConnConnected || s.conn == ConnConnecting || s.conn == ConnReconnecting {
          assert At(Pc.Disconnecting(c)) == Run(w0, es);
          fs := DisconnectStage(c);
          RunConcat(w0, es, fs);
          es := es + fs;
        }
        return;
      }
      var go, forced;
      go, forced, fs := DecideToConnect(c, s.conn);
      RunConcat(w0, es, fs);
      es := es + fs;
      if go {
        fs := ConnectNow(c, forced);
        RunConcat(w0, es, fs);
        es := es + fs;
      }
    }

    method ConnectNow(c: Config, ghost forced: bool) returns (ghost es: seq<Event>)
      requires Valid()
      modifies this, st, xvpn`connectedAt, xvpn.ctl
      ensures Valid() && InPass(old(At(MarkConnecting(c, forced))), es)
      ensures At(Idle) == Run(old(At(MarkConnecting(c, forced))), es)
      ensures CliSpent(es) == Issued() - old(Issued())
    {
      hide Section;
      ghost var w0 := At(MarkConnecting(c, forced));
      var udp, await;
      udp, await, es := Announce(c, forced);
      ghost var fs;
      if await {
        udp, fs := AwaitProbe(c, forced);
        RunConcat(w0, es, fs);
        es := es + fs;
      }
      fs := Establish(c, forced, udp);
      RunConcat(w0, es, fs);
      es := es + fs;
    }

    /** One pass: the configuration it works with, then the stages. It is a whole pass of the control loop's sections, with
        only time and daemon sessions passing in between. */
    method Reconcile() returns (ghost es: seq<Event>)
      requires Valid()
      modifies this, st, up, up.box, xvpn`connectedAt, xvpn.ctl
      ensures Valid() && WholePass(old(At(Idle)), es)
      ensures At(Idle) == Run(old(At(Idle)), es)
      ensures CliSpent(es) == Issued() - old(Issued())
    {
      hide LayerSection, ConnectionSection, Step;
      ghost var w0 := At(Idle);
      var c := cfg;
      ghost var begin := Pass(NO_ANSWER);
      RunOne(w0, begin);
      RunFirst(w0, NO_ANSWER);
      assert At(ReadDesired(c)) == Run(w0, [begin]) == Step(w0, begin);
      ghost var rest := Stages(c);
      RunConcat(w0, [begin], rest);
      es := [begin] + rest;
      assert es[0] == begin && es[1..] == rest;
    }

    /** Kill switch, uplink, settings, connection; a failure of one of the first two ends the pass. */
    method Stages(c: Config) returns (ghost es: seq<Event>)
      requires Valid()
      modifies this, st, up, up.box, xvpn`connectedAt, xvpn.ctl
      ensures Valid() && InPass(old(At(ReadDesired(c))), es)
      ensures At(Idle) == Run(old(At(ReadDesired(c))), es)
      ensures CliSpent(es) == Issued() - old(Issued())
    {
      hide LayerSection, ConnectionSection, Step;
      ghost var w0 := At(ReadDesired(c));
      var wasDesired := st.cur.desired;
      RunFirst(w0, NO_ANSWER);
      DesiredSection(w0, NO_ANSWER);
      es := [Pass(NO_ANSWER)];
      assert At(StageKillswitch(c, wasDesired)) == Run(w0, es);
      ghost var fs;
      var ok;
      ok, fs := KillswitchStage(c, wasDesired);
      RunConcat(w0, es, fs);
      es := es + fs;
      if !ok {
        return;
      }
      ok, fs := UplinkStage(c, wasDesired);
      RunConcat(w0, es, fs);
      es := es + fs;
      if !ok {
        return;
      }
      fs := SettingsStage(c);
      RunConcat(w0, es, fs);
      es := es + fs;
      fs := ConnectionStage(c);
      RunConcat(w0, es, fs);
      es := es + fs;
    }
  }

  /** Whatever failed before, the next decision after a user's connect or reconnect is to connect, unless a connection is
      shown, or announced, and nothing forces a new one. */
  lemma ActionsUnblock(w: World, c: Config)
    ensures var w' := Step(Step(w, WantConnected), Event.ResetRetries);
            w'.st.conn != ConnConnected && w'.st.conn != ConnConnecting ==>
              DecideSection(w'.(pc := Decide(c, w'.st.desired, w'.st.conn))).pc == MarkConnecting(c, w.mem.force.Some?)
    ensures var w' := Step(Step(Step(w, MarkReconnecting), ForceReconnect), Event.ResetRetries);
            w.st.desired ==> DecideSection(w'.(pc := Decide(c, w'.st.desired, w'.st.conn))).pc == MarkConnecting(c, true)
  {
    hide Section, U.Step, Validate;
  }

  lemma DesiredSection(w: World, a: Answer)
    requires w.pc.ReadDesired?
    ensures Section(w, a) == w.(pc := StageKillswitch(w.pc.c, w.st.desired))
  {
  }
}
