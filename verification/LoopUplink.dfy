/** What every run of the control loop keeps about the uplink: `connected` is never shown early, stale probe results never
    win, and the reconciler's memory agrees with the driver. */
module LoopUplink {
  import opened Wrappers
  import opened Config
  import opened Daemon
  import opened AgentState
  import opened ControlLoop
  import U = UplinkDriver
  import XvpnManager

  // ---------- `connected` is never shown early ----------

  predicate Switching(pc: Pc) {
    pc.ApplyingUplink? || pc.UplinkApplied?
  }

  /** Bookkeeping that holds in every run. */
  ghost predicate SessionsInv(w: World) {
    && w.h.sessionsAtApply <= w.sessions
    && (w.pc.Connecting? ==> w.pc.sessionsBefore >= w.h.sessionsAtApply)
    && (Switching(w.pc) ==> !w.h.sessionSince)
  }

  /** A driver connect returned nil since the last uplink Apply began, on a session that did not exist then. */
  predicate Founded(w: World) {
    w.h.sessionSince && w.sessions > w.h.sessionsAtApply
  }

  predicate Early(w: World) {
    w.st.conn == ConnConnected && !Founded(w)
  }

  /** A switch starts while the connection is up and the user no longer wants it. */
  predicate StartsSwitchOpen(w: World, e: Event) {
    && e.Pass? && w.pc.StageUplink? && w.mem.uplink != Some(w.pc.c.uplink)
    && w.st.conn == ConnConnected && !w.st.desired
  }

  /** A session made behind the agent's back is shown: by a poll, or by the daemon's start-up. */
  predicate Adopts(w: World, e: Event) {
    || (e.Supervise? && w.st.conn == ConnDisconnected && e.polled == ConnConnected)
    || (e.DaemonReady? && e.polled == ConnConnected)
  }

  predicate MakesEarly(w: World, e: Event) {
    StartsSwitchOpen(w, e) || (Adopts(w, e) && !Founded(w))
  }

  lemma GateLayers(w: World, a: Answer)
    requires SessionsInv(w) && InLayers(w.pc)
    ensures SessionsInv(LayerSection(w, a))
    ensures !Early(w) ==> (Early(LayerSection(w, a)) <==> MakesEarly(w, Pass(a)))
  {
    hide U.Apply;
  }

  lemma GateDecision(w: World, a: Answer)
    requires SessionsInv(w) && InDecision(w.pc)
    ensures SessionsInv(DecisionSection(w, a))
    ensures !Early(w) ==> !Early(DecisionSection(w, a))
  {
    hide NeedsConnect, MayRetry;
  }

  lemma GateConnection(w: World, a: Answer)
    requires SessionsInv(w) && !InLayers(w.pc) && !InDecision(w.pc)
    ensures SessionsInv(ConnectionSection(w, a))
    ensures !Early(w) ==> !Early(ConnectionSection(w, a))
  {
    hide EffectiveProtocol, Spent, Backoff, U.AwaitedUdp;
  }

  lemma GateStep(w: World, e: Event)
    requires SessionsInv(w)
    ensures SessionsInv(Step(w, e))
    ensures !Early(w) ==> (Early(Step(w, e)) <==> MakesEarly(w, e))
  {
    hide U.Step, Validate, LayerSection, DecisionSection, ConnectionSection;
    if e.Pass? {
      if InLayers(w.pc) { GateLayers(w, e.a); }
      else if InDecision(w.pc) { GateDecision(w, e.a); }
      else { GateConnection(w, e.a); }
    }
  }

  ghost predicate EverEarly(w: World, es: seq<Event>)
    decreases |es|
  {
    Early(w) || (es != [] && EverEarly(Step(w, es[0]), es[1..]))
  }

  ghost predicate EverMadeEarly(w: World, es: seq<Event>)
    decreases |es|
  {
    es != [] && (MakesEarly(w, es[0]) || EverMadeEarly(Step(w, es[0]), es[1..]))
  }

  lemma {:induction false} GateRun(w: World, es: seq<Event>)
    requires SessionsInv(w)
    ensures SessionsInv(Run(w, es))
    ensures !Early(w) ==> (EverEarly(w, es) <==> EverMadeEarly(w, es))
    ensures !EverEarly(w, es) ==> !Early(Run(w, es))
    decreases |es|
  {
    hide Step, SessionsInv, Early, MakesEarly;
    if es == [] {
    } else {
      GateStep(w, es[0]);
      GateRun(Step(w, es[0]), es[1..]);
    }
  }

  /** In every run, `connected` is at some time shown without a new session since the last uplink Apply began exactly when
      at some time a switch starts on a connection that is up and unwanted, or a session is adopted with none made since. */
  lemma ConnectedIsEarlyIff(cfg: Config, o: U.Original, es: seq<Event>)
    ensures EverEarly(Start(cfg, o), es) <==> EverMadeEarly(Start(cfg, o), es)
  {
    GateRun(Start(cfg, o), es);
  }

  /** The user keeps wanting a connection, and no session is adopted. */
  predicate Undisturbed(w: World, e: Event) {
    w.st.desired && !e.WantDisconnected? && !e.LoggedOut? && !Adopts(w, e)
  }

  ghost predicate Stretch(w: World, es: seq<Event>)
    decreases |es|
  {
    es != [] ==> Undisturbed(w, es[0]) && Stretch(Step(w, es[0]), es[1..])
  }

  lemma {:induction false} UndisturbedIsNotEarly(w: World, es: seq<Event>)
    requires Stretch(w, es)
    ensures !EverMadeEarly(w, es)
    decreases |es|
  {
    hide Step;
    if es == [] {
    } else {
      UndisturbedIsNotEarly(Step(w, es[0]), es[1..]);
    }
  }

  /** So from any reachable world that does not show `connected`, over any undisturbed stretch of passes, polls, crashes and
      changes: `connected` stands for a new session, and is not shown for the whole of every switch. */
  lemma ConnectedIsNeverEarly(cfg: Config, o: U.Original, before: seq<Event>, es: seq<Event>)
    requires var w0 := Run(Start(cfg, o), before); w0.st.conn != ConnConnected && Stretch(w0, es)
    ensures var w := Run(Run(Start(cfg, o), before), es);
            && (w.st.conn == ConnConnected ==> w.h.sessionSince && w.sessions > w.h.sessionsAtApply)
            && (Switching(w.pc) ==> w.st.conn != ConnConnected)
  {
    hide Step, Run;
    var w0 := Run(Start(cfg, o), before);
    GateRun(Start(cfg, o), before);
    GateRun(w0, es);
    UndisturbedIsNotEarly(w0, es);
  }

  // ---------- when the gate is open during a switch ----------

  predicate OpenSwitch(w: World) {
    Switching(w.pc) && w.st.conn == ConnConnected
  }

  predicate OpensSwitch(w: World, e: Event) {
    StartsSwitchOpen(w, e) || (Switching(w.pc) && Adopts(w, e))
  }

  lemma OpenLayers(w: World, a: Answer)
    requires InLayers(w.pc) && !OpenSwitch(w)
    ensures OpenSwitch(LayerSection(w, a)) <==> OpensSwitch(w, Pass(a))
  {
    hide U.Apply;
  }

  lemma OpenElsewhere(w: World, a: Answer)
    requires !InLayers(w.pc)
    ensures !Switching(Section(w, a).pc)
  {
    hide NeedsConnect, MayRetry, EffectiveProtocol, Spent, Backoff, U.AwaitedUdp, LayerSection;
  }

  lemma OpenStep(w: World, e: Event)
    requires !OpenSwitch(w)
    ensures OpenSwitch(Step(w, e)) <==> OpensSwitch(w, e)
  {
    hide U.Step, Validate, LayerSection, DecisionSection, ConnectionSection;
    if e.Pass? {
      if InLayers(w.pc) { OpenLayers(w, e.a); }
      else { OpenElsewhere(w, e.a); }
    }
  }

  ghost predicate EverOpenSwitch(w: World, es: seq<Event>)
    decreases |es|
  {
    OpenSwitch(w) || (es != [] && EverOpenSwitch(Step(w, es[0]), es[1..]))
  }

  ghost predicate EverOpensSwitch(w: World, es: seq<Event>)
    decreases |es|
  {
    es != [] && (OpensSwitch(w, es[0]) || EverOpensSwitch(Step(w, es[0]), es[1..]))
  }

  lemma {:induction false} OpenRun(w: World, es: seq<Event>)
    requires !OpenSwitch(w)
    ensures EverOpenSwitch(w, es) <==> EverOpensSwitch(w, es)
    decreases |es|
  {
    hide Step, OpenSwitch, OpensSwitch;
    if es == [] {
    } else {
      OpenStep(w, es[0]);
      if !OpenSwitch(Step(w, es[0])) {
        OpenRun(Step(w, es[0]), es[1..]);
      }
    }
  }

  /** In every run, the proxy's gate is open at some time of some switch exactly when at some time a switch starts on a
      connection that is up and unwanted, or a poll or the daemon's start-up adopts a session during a switch. */
  lemma GateOpensInSwitchIff(cfg: Config, o: U.Original, es: seq<Event>)
    ensures EverOpenSwitch(Start(cfg, o), es) <==> EverOpensSwitch(Start(cfg, o), es)
  {
    OpenRun(Start(cfg, o), es);
  }

  /** Each of the three happens: the daemon comes up with a session before the first pass, during its Apply, or is polled
      then; and wanting the connection again does not shut the gate. */
  lemma SwitchesCanBeOpen(cfg: Config, o: U.Original, a: Answer)
    requires a.ok
    ensures OpenSwitch(Run(Start(cfg, o), [DaemonReady(ConnConnected), Pass(a), Pass(a), Pass(a), Pass(a), WantConnected]))
    ensures OpenSwitch(Run(Start(cfg, o), [Pass(a), Pass(a), Pass(a), Pass(a), DaemonReady(ConnConnected), WantConnected]))
    ensures OpenSwitch(Run(Start(cfg, o), [Pass(a), Pass(a), Pass(a), Pass(a), Supervise(ConnConnected), WantConnected]))
  {
    hide U.Apply;
    var p, ready, polled := Pass(a), DaemonReady(ConnConnected), Supervise(ConnConnected);
    SixSteps(Start(cfg, o), ready, p, p, p, p, WantConnected);
    SixSteps(Start(cfg, o), p, p, p, p, ready, WantConnected);
    SixSteps(Start(cfg, o), p, p, p, p, polled, WantConnected);
    FirstSwitch(Start(cfg, o), a);
    FirstSwitch(Step(Start(cfg, o), ready), a);
  }

  /** The first four sections of a first pass. */
  lemma FirstSwitch(w: World, a: Answer)
    requires w.pc.Idle? && w.mem.ks.None? && w.mem.uplink.None? && !w.st.desired && a.ok
    ensures var w' := Step(Step(Step(Step(w, Pass(a)), Pass(a)), Pass(a)), Pass(a));
            w'.pc.ApplyingUplink? && w'.st.conn == w.st.conn && !w'.st.desired
  {
    hide U.Apply;
    var w1 := Section(w, a);
    var w2 := Section(w1, a);
    var w3 := Section(w2, a);
    assert w3.pc.StageUplink? && w3.st.conn == w.st.conn && w3.mem.uplink.None?;
  }

  lemma SixSteps(w: World, a: Event, b: Event, c: Event, d: Event, e: Event, f: Event)
    ensures Run(w, [a, b, c, d, e, f]) == Step(Step(Step(Step(Step(Step(w, a), b), c), d), e), f)
  {
    hide Step, Run;
    RunCons(w, [a, b, c, d, e, f]);
    var w1 := Step(w, a);
    RunCons(w1, [b, c, d, e, f]);
    var w2 := Step(w1, b);
    RunCons(w2, [c, d, e, f]);
    var w3 := Step(w2, c);
    RunCons(w3, [d, e, f]);
    var w4 := Step(w3, d);
    RunCons(w4, [e, f]);
    var w5 := Step(w4, e);
    RunCons(w5, [f]);
    RunNothing(Step(w5, f), [f][1..]);
    assert [a, b, c, d, e, f][1..] == [b, c, d, e, f] && [b, c, d, e, f][1..] == [c, d, e, f];
    assert [c, d, e, f][1..] == [d, e, f] && [d, e, f][1..] == [e, f] && [e, f][1..] == [f];
  }

  // ---------- stale probe results never win ----------

  /** `udp` is unknown, the constant that the applied uplink dictates, or the result of that uplink's own probe. */
  ghost predicate Justified(udp: Tri, d: U.Driver, probes: map<nat, Tri>) {
    || udp == TriUnknown
    || (d.applied.Some? &&
        var u := d.applied.value;
        if u.mode == "host" || u.socks5.udp == "on" then udp == TriTrue
        else if u.socks5.udp == "off" then udp == TriFalse
        else d.probeRun.Some? && d.probeRun.value in probes && udp == probes[d.probeRun.value])
  }

  ghost predicate ProbesInv(d: U.Driver, probes: map<nat, Tri>) {
    && (d.probeRun.Some? ==> d.applied.Some? && U.ProbesUdp(d.applied.value) && d.probeRun.value < d.nextProbe)
    && (forall run | run in probes :: run < d.nextProbe)
  }

  /** UDP reaches the proxy for sure: forced on, or the current uplink's own probe succeeded. */
  ghost predicate UdpProven(u: Uplink, d: U.Driver, probes: map<nat, Tri>) {
    && d.applied == Some(u)
    && (u.socks5.udp == "on" ||
        (U.ProbesUdp(u) && d.probeRun.Some? && d.probeRun.value in probes && probes[d.probeRun.value] == TriTrue))
  }

  predicate PastUplink(pc: Pc) {
    PastLayers(pc) && !pc.Idle?
  }

  predicate PastLayers(pc: Pc) {
    !InLayers(pc)
  }

  ghost predicate UdpInv(w: World) {
    var d, probes := w.driver, w.h.probes;
    && ProbesInv(d, probes)
    && (PastUplink(w.pc) ==> w.mem.uplink == Some(w.pc.c.uplink))
    && (match w.pc
        case UplinkApplied(c, up, ok) =>
          if ok then d.applied == Some(c.uplink) && Justified(if up.udp == TriUnknown then w.st.uplink.udp else up.udp, d, probes)
          else up.udp == TriUnknown && (d.applied.None? || d.applied == w.mem.uplink)
        case _ => Justified(w.st.uplink.udp, d, probes) && (d.applied.None? || d.applied == w.mem.uplink))
    && (w.pc.PublishUdp? || w.pc.ChooseProtocol? ==> Justified(w.pc.udp, d, probes))
    && (w.pc.Connecting? && w.pc.c.uplink.mode == "socks5" && w.pc.effective in UDP_PROTOCOLS ==>
          UdpProven(w.pc.c.uplink, d, probes))
  }

  lemma ApplySocks5KeepsUdp(d: U.Driver, udp: Tri, cfg: Uplink, a: U.Answer, probes: map<nat, Tri>)
    requires ProbesInv(d, probes) && d.probeRun.None? && cfg.mode == "socks5"
    ensures var r := U.ApplySocks5(d, udp, cfg, a);
            && ProbesInv(r.d, probes)
            && (if r.ok then r.d.applied == Some(cfg) && Justified(if r.up.udp == TriUnknown then r.udp else r.up.udp, r.d, probes)
                else r.up.udp == TriUnknown && (r.d.applied.None? || r.d.applied == d.applied))
  {
    hide U.ApplyRoutes, U.RestoreHostRoutes, U.WithoutTun, U.DetectGateway;
  }

  lemma ApplyKeepsUdp(d: U.Driver, udp: Tri, cfg: Uplink, a: U.Answer, probes: map<nat, Tri>)
    requires ProbesInv(d, probes) && Justified(udp, d, probes)
    ensures var r := U.Apply(d, udp, cfg, a);
            && ProbesInv(r.d, probes)
            && (if r.ok then r.d.applied == Some(cfg) && Justified(if r.up.udp == TriUnknown then r.udp else r.up.udp, r.d, probes)
                else r.up.udp == TriUnknown && (r.d.applied.None? || r.d.applied == d.applied))
  {
    hide U.ApplySocks5, U.RestoreHostRoutes, U.WithoutTun;
    if cfg.mode == "socks5" {
      ApplySocks5KeepsUdp(if U.IsSocks5(d.applied) then U.Teardown(d) else d, udp, cfg, a, probes);
    }
  }

  lemma UdpLayers(w: World, a: Answer)
    requires UdpInv(w) && InLayers(w.pc)
    ensures UdpInv(LayerSection(w, a))
  {
    hide U.Apply;
    if w.pc.ApplyingUplink? {
      ApplyKeepsUdp(w.driver, w.st.uplink.udp, w.pc.c.uplink, a.uplink, w.h.probes);
    }
  }

  lemma UdpDecision(w: World, a: Answer)
    requires UdpInv(w) && InDecision(w.pc)
    ensures UdpInv(DecisionSection(w, a))
  {
    hide NeedsConnect, MayRetry, Justified, ProbesInv;
  }

  lemma UdpConnection(w: World, a: Answer)
    requires UdpInv(w) && !InLayers(w.pc) && !InDecision(w.pc)
    ensures UdpInv(ConnectionSection(w, a))
  {
    hide Spent, Backoff, EffectiveProtocol;
    if w.pc.ChooseProtocol? {
      UdpProtocol(w);
    }
  }

  lemma UdpProtocol(w: World)
    requires UdpInv(w) && w.pc.ChooseProtocol?
    ensures UdpInv(ProtocolSection(w))
  {
    var c := w.pc.c;
    var effective := EffectiveProtocol(Requested(c), c.uplink.mode, w.pc.udp).0;
    assert "lightway_tcp" !in UDP_PROTOCOLS by { assert "lightway_tcp"[9] != "lightway_udp"[9]; }
    if c.uplink.mode == "socks5" && effective in UDP_PROTOCOLS {
      assert w.pc.udp == TriTrue;
      assert w.driver.applied == Some(c.uplink);
    }
  }

  lemma UdpStep(w: World, e: Event)
    requires UdpInv(w)
    ensures UdpInv(Step(w, e))
  {
    hide Validate, LayerSection, DecisionSection, ConnectionSection;
    if e.Pass? {
      if InLayers(w.pc) { UdpLayers(w, e.a); }
      else if InDecision(w.pc) { UdpDecision(w, e.a); }
      else { UdpConnection(w, e.a); }
    }
  }

  lemma {:induction false} UdpRun(w: World, es: seq<Event>)
    requires UdpInv(w)
    ensures UdpInv(Run(w, es))
    decreases |es|
  {
    if es == [] {
    } else {
      UdpStep(w, es[0]);
      UdpRun(Step(w, es[0]), es[1..]);
    }
  }

  /** In every interleaving, unless an Apply's result is about to be published, the shown udpSupported is unknown, the applied
      uplink's constant, or the result of the probe that uplink's Apply started. */
  lemma StaleProbesNeverWin(cfg: Config, o: U.Original, es: seq<Event>)
    ensures var w := Run(Start(cfg, o), es);
            !w.pc.UplinkApplied? ==> Justified(w.st.uplink.udp, w.driver, w.h.probes)
  {
    UdpRun(Start(cfg, o), es);
  }

  /** So over a socks5 uplink the daemon is asked for a protocol that needs UDP only if that very uplink was proved to carry it. */
  lemma UdpProtocolsAreProven(cfg: Config, o: U.Original, es: seq<Event>)
    ensures var w := Run(Start(cfg, o), es);
            w.pc.Connecting? && w.pc.c.uplink.mode == "socks5" && w.pc.effective in UDP_PROTOCOLS ==>
              UdpProven(w.pc.c.uplink, w.driver, w.h.probes)
  {
    UdpRun(Start(cfg, o), es);
  }

  // ---------- the reconciler's memory of the uplink ----------

  /** What the reconciler believes applied and what the driver has applied agree unless the latest Apply failed; then the
      driver has nothing, at least whenever the reconciler believes in a socks5 uplink. */
  ghost predicate MemoryInv(w: World) {
    var d := w.driver;
    match w.pc
    case UplinkApplied(c, _, ok) =>
      && ok == !w.h.lastApplyFailed
      && if ok then d.applied == Some(c.uplink) else d.applied.None? || (d.applied == w.mem.uplink && !U.IsSocks5(d.applied))
    case _ =>
      if !w.h.lastApplyFailed then d.applied == w.mem.uplink
      else d.applied.None? || (d.applied == w.mem.uplink && !U.IsSocks5(d.applied))
  }

  predicate ValidConfigs(w: World) {
    Valid(w.cfg) && (!w.pc.Idle? ==> Valid(w.pc.c))
  }

  lemma ApplySocks5Outcome(d: U.Driver, udp: Tri, cfg: Uplink, a: U.Answer)
    requires cfg.mode == "socks5" && !U.IsSocks5(d.applied)
    ensures var r := U.ApplySocks5(d, udp, cfg, a);
            if r.ok then r.d.applied == Some(cfg) else r.d.applied == d.applied || r.d.applied.None?
  {
    hide U.ApplyRoutes, U.RestoreHostRoutes, U.WithoutTun, U.DetectGateway;
  }

  lemma ApplyOutcome(d: U.Driver, udp: Tri, cfg: Uplink, a: U.Answer)
    requires cfg.mode == "host" || cfg.mode == "socks5"
    ensures var r := U.Apply(d, udp, cfg, a);
            if r.ok then r.d.applied == Some(cfg) else r.d.applied.None? || (r.d.applied == d.applied && !U.IsSocks5(d.applied))
  {
    hide U.ApplySocks5, U.RestoreHostRoutes, U.WithoutTun;
    if cfg.mode == "socks5" {
      ApplySocks5Outcome(if U.IsSocks5(d.applied) then U.Teardown(d) else d, udp, cfg, a);
    }
  }

  lemma MemoryStep(w: World, e: Event)
    requires MemoryInv(w) && ValidConfigs(w)
    ensures MemoryInv(Step(w, e)) && ValidConfigs(Step(w, e))
  {
    hide Validate, LayerSection, DecisionSection, ConnectionSection;
    if e.Pass? {
      if InLayers(w.pc) { MemoryLayers(w, e.a); }
      else if InDecision(w.pc) { MemoryDecision(w, e.a); }
      else { MemoryConnection(w, e.a); }
    }
  }

  lemma MemoryLayers(w: World, a: Answer)
    requires MemoryInv(w) && ValidConfigs(w) && InLayers(w.pc)
    ensures MemoryInv(LayerSection(w, a)) && ValidConfigs(LayerSection(w, a))
  {
    hide U.Apply;
    if w.pc.ApplyingUplink? { ApplyOutcome(w.driver, w.st.uplink.udp, w.pc.c.uplink, a.uplink); }
  }

  lemma MemoryDecision(w: World, a: Answer)
    requires MemoryInv(w) && ValidConfigs(w) && InDecision(w.pc)
    ensures MemoryInv(DecisionSection(w, a)) && ValidConfigs(DecisionSection(w, a))
  {
    hide NeedsConnect, MayRetry, Validate;
  }

  lemma MemoryConnection(w: World, a: Answer)
    requires MemoryInv(w) && ValidConfigs(w) && !InLayers(w.pc) && !InDecision(w.pc)
    ensures MemoryInv(ConnectionSection(w, a)) && ValidConfigs(ConnectionSection(w, a))
  {
    hide EffectiveProtocol, Spent, Backoff, U.AwaitedUdp, Validate;
  }

  lemma {:induction false} MemoryRun(w: World, es: seq<Event>)
    requires MemoryInv(w) && ValidConfigs(w)
    ensures MemoryInv(Run(w, es)) && ValidConfigs(Run(w, es))
    decreases |es|
  {
    if es == [] {
    } else {
      MemoryStep(w, es[0]);
      MemoryRun(Step(w, es[0]), es[1..]);
    }
  }

  /** In every run, while the reconciler believes in a socks5 uplink and none is being applied, the driver has it applied
      exactly when the latest Apply did not fail; and after a run's last Apply succeeded they agree in any mode. */
  lemma MemoryAgreesIffNotFailed(cfg: Config, o: U.Original, es: seq<Event>)
    requires Valid(cfg)
    ensures var w := Run(Start(cfg, o), es);
            !w.pc.UplinkApplied? ==>
              && (!w.h.lastApplyFailed ==> w.driver.applied == w.mem.uplink)
              && (U.IsSocks5(w.mem.uplink) ==> (w.driver.applied == w.mem.uplink <==> !w.h.lastApplyFailed))
  {
    MemoryRun(Start(cfg, o), es);
  }

  // ---------- what the daemon is told ----------

  /** A protocol on its way to the driver is the effective one of the requested. */
  ghost predicate EffectiveInv(w: World) {
    w.pc.Connecting? ==> exists udp :: w.pc.effective == EffectiveProtocol(Requested(w.pc.c), w.pc.c.uplink.mode, udp).0
  }

  lemma EffectiveStep(w: World, e: Event)
    requires EffectiveInv(w)
    ensures EffectiveInv(Step(w, e))
  {
    hide LayerSection, DecisionSection, U.Step, U.AwaitedUdp, Validate, EffectiveProtocol, Spent, Backoff;
    if e.Pass? {
      if InLayers(w.pc) { LayersDoNotConnect(w, e.a); }
      else if InDecision(w.pc) { DecisionDoesNotConnect(w, e.a); }
      else if w.pc.ChooseProtocol? {
        assert Step(w, e).pc.effective == EffectiveProtocol(Requested(w.pc.c), w.pc.c.uplink.mode, w.pc.udp).0;
      }
    }
  }

  lemma LayersDoNotConnect(w: World, a: Answer)
    requires InLayers(w.pc)
    ensures !LayerSection(w, a).pc.Connecting?
  {
    hide U.Apply;
  }

  lemma DecisionDoesNotConnect(w: World, a: Answer)
    requires InDecision(w.pc)
    ensures !DecisionSection(w, a).pc.Connecting?
  {
    hide NeedsConnect, MayRetry;
  }

  lemma {:induction false} EffectiveRun(w: World, es: seq<Event>)
    requires EffectiveInv(w)
    ensures EffectiveInv(Run(w, es))
    decreases |es|
  {
    hide Step, EffectiveInv;
    if es == [] {
    } else {
      EffectiveStep(w, es[0]);
      EffectiveRun(Step(w, es[0]), es[1..]);
    }
  }

  /** In every run, what the driver's connect may tell the daemon over a socks5 uplink, in the daemon's own names, needs UDP
      only if that very uplink was proved to carry it; and it is a protocol the daemon knows. */
  lemma CliProtocolsAreProven(cfg: Config, o: U.Original, es: seq<Event>, location: string, journal: seq<XvpnManager.Issued>)
    requires Valid(cfg) && Run(Start(cfg, o), es).pc.Connecting?
    requires XvpnManager.AllOpening(journal, location, Run(Start(cfg, o), es).pc.effective)
    ensures var w := Run(Start(cfg, o), es);
            forall e | e in journal && e.command.SetProtocol? ::
              && e.command.name in CLI_TO_API
              && (w.pc.c.uplink.mode == "socks5" && e.command.name in CLI_NEEDS_UDP ==>
                    UdpProven(w.pc.c.uplink, w.driver, w.h.probes))
  {
    hide Run, UdpProven, EffectiveProtocol;
    var w := Run(Start(cfg, o), es);
    UdpProtocolsAreProven(cfg, o, es);
    MemoryRun(Start(cfg, o), es);
    EffectiveRun(Start(cfg, o), es);
    var udp :| w.pc.effective == EffectiveProtocol(Requested(w.pc.c), w.pc.c.uplink.mode, udp).0;
    EffectiveMeans(Requested(w.pc.c), w.pc.c.uplink.mode, udp);
    CliNameIsFaithful(w.pc.effective);
  }

  // ---------- whether the uplink that is believed in works ----------

  /** Whether the latest Apply or engine death of a run is an Apply that succeeded, `was` before it. */
  function UpAfter(w: World, es: seq<Event>, was: bool): bool
    decreases |es|
  {
    if es == [] then was else UpAfter(Step(w, es[0]), es[1..], UpNext(w, es[0], was))
  }

  function UpNext(w: World, e: Event, was: bool): bool {
    if e.EngineDies? then false
    else if e.Pass? && w.pc.ApplyingUplink? then U.Apply(w.driver, w.st.uplink.udp, w.pc.c.uplink, e.a.uplink).ok
    else was
  }

  ghost predicate EngineInv(w: World, up: bool) {
    && (up ==> !w.h.lastApplyFailed)
    && (!w.h.lastApplyFailed && U.IsSocks5(w.driver.applied) ==> (w.driver.engine <==> up))
  }

  lemma ApplyStartsEngine(d: U.Driver, udp: Tri, cfg: Uplink, a: U.Answer)
    ensures var r := U.Apply(d, udp, cfg, a);
            r.ok && U.IsSocks5(r.d.applied) ==> r.d.engine
  {
    hide U.ApplyRoutes, U.RestoreHostRoutes, U.WithoutTun, U.DetectGateway;
  }

  lemma EngineStep(w: World, e: Event, up: bool)
    requires EngineInv(w, up)
    ensures EngineInv(Step(w, e), UpNext(w, e, up))
  {
    hide U.Apply, Validate, DecisionSection, ConnectionSection;
    if e.Pass? {
      if w.pc.ApplyingUplink? { ApplyStartsEngine(w.driver, w.st.uplink.udp, w.pc.c.uplink, e.a.uplink); }
      else { OnlyApplyTouchesDriver(w, e.a); }
    }
  }

  lemma OnlyApplyTouchesDriver(w: World, a: Answer)
    requires !w.pc.ApplyingUplink?
    ensures Section(w, a).driver == w.driver && Section(w, a).h.lastApplyFailed == w.h.lastApplyFailed
  {
    hide LayerSection, DecisionSection, ConnectionSection;
    if InLayers(w.pc) { LayersKeepDriver(w, a); }
    else if InDecision(w.pc) { DecisionKeepsDriver(w, a); }
    else { ConnectionKeepsDriver(w, a); }
  }

  lemma LayersKeepDriver(w: World, a: Answer)
    requires InLayers(w.pc) && !w.pc.ApplyingUplink?
    ensures LayerSection(w, a).driver == w.driver && LayerSection(w, a).h.lastApplyFailed == w.h.lastApplyFailed
  {
  }

  lemma DecisionKeepsDriver(w: World, a: Answer)
    requires InDecision(w.pc)
    ensures DecisionSection(w, a).driver == w.driver && DecisionSection(w, a).h.lastApplyFailed == w.h.lastApplyFailed
  {
    hide NeedsConnect, MayRetry;
  }

  lemma ConnectionKeepsDriver(w: World, a: Answer)
    requires !InLayers(w.pc) && !InDecision(w.pc)
    ensures ConnectionSection(w, a).driver == w.driver && ConnectionSection(w, a).h.lastApplyFailed == w.h.lastApplyFailed
  {
    hide EffectiveProtocol, Spent, Backoff, U.AwaitedUdp;
  }

  lemma {:induction false} EngineRun(w: World, es: seq<Event>, up: bool)
    requires EngineInv(w, up)
    ensures EngineInv(Run(w, es), UpAfter(w, es, up))
    decreases |es|
  {
    hide Step, EngineInv, UpNext;
    if es == [] {
    } else {
      EngineStep(w, es[0], up);
      EngineRun(Step(w, es[0]), es[1..], UpNext(w, es[0], up));
    }
  }

  /** In every run, while the reconciler believes in a socks5 uplink and no result is about to be published: that uplink is
      applied with its engine running exactly when the latest Apply or engine death was an Apply that succeeded. Nothing else
      makes it work again, because no pass calls Apply for an uplink that is believed in. */
  lemma UplinkWorksIff(cfg: Config, o: U.Original, es: seq<Event>)
    requires Valid(cfg)
    ensures var w := Run(Start(cfg, o), es);
            !w.pc.UplinkApplied? && U.IsSocks5(w.mem.uplink) ==>
              (w.driver.applied == w.mem.uplink && w.driver.engine <==> UpAfter(Start(cfg, o), es, false))
  {
    MemoryRun(Start(cfg, o), es);
    EngineRun(Start(cfg, o), es, false);
  }

  // ---------- routes and resolv.conf over whole runs ----------

  predicate DriverCommandsWork(e: Event) {
    e.Pass? ==> U.CommandsWork(e.a.uplink)
  }

  lemma RoutesStep(w: World, e: Event, o: U.Original)
    requires U.Pristine(o) && U.Sound(w.driver, o) && DriverCommandsWork(e)
    ensures U.Sound(Step(w, e).driver, o)
  {
    hide U.Apply, U.Sound, U.Pristine, U.CommandsWork, Validate, Section;
    if e.Pass? {
      if w.pc.ApplyingUplink? {
        U.ApplySound(w.driver, w.st.uplink.udp, w.pc.c.uplink, e.a.uplink, o);
        ApplyingSection(w, e.a);
      } else {
        OnlyApplyTouchesDriver(w, e.a);
      }
    } else if e.EngineDies? {
      U.EngineDiesSound(w.driver, e.dropsRoutes, o);
    }
  }

  lemma ApplyingSection(w: World, a: Answer)
    requires w.pc.ApplyingUplink?
    ensures Section(w, a).driver == U.Apply(w.driver, w.st.uplink.udp, w.pc.c.uplink, a.uplink).d
  {
    hide U.Apply;
  }

  lemma {:induction false} RoutesRun(w: World, es: seq<Event>, o: U.Original)
    requires U.Pristine(o) && U.Sound(w.driver, o) && forall e | e in es :: DriverCommandsWork(e)
    ensures U.Sound(Run(w, es).driver, o)
    decreases |es|
  {
    hide Step, U.Sound, U.Pristine, DriverCommandsWork;
    if es == [] {
    } else {
      RoutesStep(w, es[0], o);
      RoutesRun(Step(w, es[0]), es[1..], o);
    }
  }

  /** In every run of the loop, whatever fails but writing resolv.conf and tearing down: unless a socks5 uplink is applied,
      the routed networks, the default route and resolv.conf are the originals; while one is, the default goes to the TUN
      peer or nowhere, and what is needed to return is kept. */
  lemma OriginalsComeBackInEveryRun(cfg: Config, o: U.Original, es: seq<Event>)
    requires U.Pristine(o) && forall e | e in es :: DriverCommandsWork(e)
    ensures var d := Run(Start(cfg, o), es).driver;
            && (!U.IsSocks5(d.applied) ==> U.NetsRestored(d.table, o) && d.resolv == o.resolv && !d.engine)
            && (U.IsSocks5(d.applied) ==> d.savedResolv == Some(o.resolv) && d.resolv == U.REDIRECTED_RESOLV && U.Diverted(d, o))
  {
    RoutesRun(Start(cfg, o), es, o);
  }
}
