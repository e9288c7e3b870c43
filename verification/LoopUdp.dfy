/** What every run of the control loop shows about UDP: exactly what is known of the uplink that is applied. */
module LoopUdp {
  import opened Wrappers
  import opened Config
  import opened Daemon
  import opened AgentState
  import opened ControlLoop
  import opened LoopUplink
  import U = UplinkDriver

  /** What is known: the constant of the applied uplink, or the result of its own probe once that has finished. */
  function Known(d: U.Driver, probes: map<nat, Tri>): Tri {
    if d.applied.None? then TriUnknown
    else if d.applied.value.mode == "host" || d.applied.value.socks5.udp == "on" then TriTrue
    else if d.applied.value.socks5.udp == "off" then TriFalse
    else if d.probeRun.Some? && d.probeRun.value in probes then probes[d.probeRun.value]
    else TriUnknown
  }

  /** Besides what LoopUplink keeps: the shown value is the known one, or unknown after a failed Apply. */
  ghost predicate ShownInv(w: World) {
    var d, probes, st := w.driver, w.h.probes, w.st.uplink;
    && (w.h.lastApplyFailed ==> d.probeRun.None?)
    && match w.pc
       case ApplyingUplink(c) => st.mode == c.uplink.mode && w.mem.uplink != Some(c.uplink)
       case UplinkApplied(c, up, ok) =>
         && st.mode == c.uplink.mode && up.mode == c.uplink.mode
         && (ok ==> (if up.udp == TriUnknown then st.udp else up.udp) == Known(d, probes))
       case _ =>
         && st.udp == (if w.h.lastApplyFailed then TriUnknown else Known(d, probes))
         && (d.probeRun.Some? ==> st.mode == "socks5")
         && (w.pc.AwaitUdp? ==> w.pc.c.uplink.mode == "socks5")
         && (w.pc.PublishUdp? ==> !w.h.lastApplyFailed && w.pc.udp == Known(d, probes) && w.pc.udp != TriUnknown)
  }

  ghost predicate AllInv(w: World) {
    MemoryInv(w) && ValidConfigs(w) && UdpInv(w) && ShownInv(w)
  }

  lemma ApplySocks5Shows(d: U.Driver, udp: Tri, cfg: Uplink, a: U.Answer, probes: map<nat, Tri>)
    requires cfg.mode == "socks5" && d.nextProbe !in probes
    ensures var r := U.ApplySocks5(d, udp, cfg, a);
            && r.up.mode == cfg.mode
            && (r.ok ==> (if r.up.udp == TriUnknown then r.udp else r.up.udp) == Known(r.d, probes))
            && (!r.ok ==> r.d.probeRun.None? || r.d.probeRun == d.probeRun)
  {
    hide U.ApplyRoutes, U.RestoreHostRoutes, U.WithoutTun, U.DetectGateway;
  }

  lemma ApplyShows(d: U.Driver, udp: Tri, cfg: Uplink, a: U.Answer, probes: map<nat, Tri>)
    requires cfg.mode in {"host", "socks5"} && ProbesInv(d, probes) && d.applied != Some(cfg)
    ensures var r := U.Apply(d, udp, cfg, a);
            && r.up.mode == cfg.mode
            && (r.ok ==> (if r.up.udp == TriUnknown then r.udp else r.up.udp) == Known(r.d, probes))
            && (!r.ok ==> r.d.probeRun.None? || r.d.probeRun == d.probeRun)
            && (!r.ok && U.IsSocks5(d.applied) ==> r.d.probeRun.None?)
  {
    hide U.ApplySocks5, U.RestoreHostRoutes, U.WithoutTun;
    if cfg.mode == "socks5" {
      ApplySocks5Shows(if U.IsSocks5(d.applied) then U.Teardown(d) else d, udp, cfg, a, probes);
    }
  }

  lemma ShownApply(w: World, a: Answer)
    requires AllInv(w) && w.pc.ApplyingUplink?
    ensures ShownInv(ApplySection(w, a))
  {
    hide U.Apply, Validate, UdpInv;
    UdpIsKept(w);
    ModesAreValid(w.pc.c);
    ApplyShows(w.driver, w.st.uplink.udp, w.pc.c.uplink, a.uplink, w.h.probes);
    ApplyOutcome(w.driver, w.st.uplink.udp, w.pc.c.uplink, a.uplink);
  }

  lemma ModesAreValid(c: Config)
    requires Valid(c)
    ensures c.uplink.mode in {"host", "socks5"}
  {
  }

  lemma UdpIsKept(w: World)
    requires UdpInv(w)
    ensures ProbesInv(w.driver, w.h.probes) && (PastUplink(w.pc) ==> w.mem.uplink == Some(w.pc.c.uplink))
    ensures w.pc.UplinkApplied? && !w.pc.ok ==> w.pc.up.udp == TriUnknown
  {
  }

  lemma ShownLayers(w: World, a: Answer)
    requires AllInv(w) && InLayers(w.pc)
    ensures ShownInv(LayerSection(w, a))
  {
    hide U.Apply, Validate, UdpInv;
    UdpIsKept(w);
    if w.pc.ApplyingUplink? { ShownApply(w, a); }
  }

  lemma ShownDecision(w: World, a: Answer)
    requires AllInv(w) && InDecision(w.pc)
    ensures ShownInv(DecisionSection(w, a))
  {
    hide NeedsConnect, MayRetry, Validate, UdpInv, Known;
  }

  lemma ShownConnection(w: World, a: Answer)
    requires AllInv(w) && !InLayers(w.pc) && !InDecision(w.pc)
    ensures ShownInv(ConnectionSection(w, a))
  {
    hide EffectiveProtocol, Spent, Backoff, Validate, UdpInv;
    UdpIsKept(w);
  }

  lemma ShownProbe(w: World, run: nat, v: Tri)
    requires AllInv(w) && v != TriUnknown
    ensures ShownInv(Probed(w, run, v))
  {
    hide Validate, UdpInv;
    UdpIsKept(w);
  }

  lemma ShownStep(w: World, e: Event)
    requires AllInv(w)
    ensures AllInv(Step(w, e))
  {
    hide MemoryInv, ValidConfigs, UdpInv, Validate, LayerSection, DecisionSection, ConnectionSection, Probed;
    MemoryStep(w, e);
    UdpStep(w, e);
    match e {
      case Pass(a) =>
        if InLayers(w.pc) { ShownLayers(w, a); }
        else if InDecision(w.pc) { ShownDecision(w, a); }
        else { ShownConnection(w, a); }
      case ProbeDone(run, supported) => ShownProbe(w, run, if supported then TriTrue else TriFalse);
      case _ =>
    }
  }

  lemma {:induction false} ShownRun(w: World, es: seq<Event>)
    requires AllInv(w)
    ensures AllInv(Run(w, es))
    decreases |es|
  {
    hide Step, AllInv;
    if es == [] {
    } else {
      ShownStep(w, es[0]);
      ShownRun(Step(w, es[0]), es[1..]);
    }
  }

  predicate MidSwitch(pc: Pc) {
    pc.ApplyingUplink? || pc.UplinkApplied?
  }

  /** In every run, except while a switch is under way, the shown udpSupported is exactly what is known: the applied uplink's
      constant, or its own probe's result as soon as that probe has finished, however early; unknown after a failed Apply. */
  lemma UdpShownIsKnown(cfg: Config, o: U.Original, es: seq<Event>)
    requires Valid(cfg)
    ensures var w := Run(Start(cfg, o), es);
            !MidSwitch(w.pc) ==> w.st.uplink.udp == if w.h.lastApplyFailed then TriUnknown else Known(w.driver, w.h.probes)
  {
    ShownRun(Start(cfg, o), es);
  }

  /** So a pass that waits for UDP learns the result of the current uplink's probe whenever that has finished. */
  lemma WaitLearnsTheProbe(cfg: Config, o: U.Original, es: seq<Event>, a: Answer)
    requires Valid(cfg)
    ensures var w := Run(Start(cfg, o), es);
            w.pc.AwaitUdp? && a.inTime && w.driver.applied == Some(w.pc.c.uplink) && U.ProbesUdp(w.pc.c.uplink)
            && w.driver.probeRun.Some? && w.driver.probeRun.value in w.h.probes && !w.h.lastApplyFailed ==>
              var result := w.h.probes[w.driver.probeRun.value];
              Section(w, a).pc == if result == TriUnknown then ChooseProtocol(w.pc.c, w.pc.forced, TriUnknown)
                                  else PublishUdp(w.pc.c, w.pc.forced, result)
  {
    UdpShownIsKnown(cfg, o, es);
  }

  // ---------- what a switch and the settings leave on record ----------

  /** While the driver's Apply runs, the new mode is announced as being applied. */
  ghost predicate AnnouncedInv(w: World) {
    w.pc.ApplyingUplink? ==>
      w.st.uplink.mode == w.pc.c.uplink.mode && w.st.uplink.status == UplinkUnknown && w.st.uplink.reason == "applying"
  }

  lemma AnnouncedStep(w: World, e: Event)
    requires AnnouncedInv(w)
    ensures AnnouncedInv(Step(w, e))
  {
    hide LayerSection, DecisionSection, ConnectionSection, U.Step, Validate;
    if e.Pass? {
      if InLayers(w.pc) { AnnouncedLayers(w, e.a); }
      else { OnlyLayersApply(w, e.a); }
    }
  }

  lemma AnnouncedLayers(w: World, a: Answer)
    requires InLayers(w.pc)
    ensures AnnouncedInv(LayerSection(w, a))
  {
    hide U.Apply;
  }

  lemma OnlyLayersApply(w: World, a: Answer)
    requires !InLayers(w.pc)
    ensures !Section(w, a).pc.ApplyingUplink?
  {
    hide LayerSection, NeedsConnect, MayRetry, EffectiveProtocol, Spent, Backoff, U.AwaitedUdp;
  }

  lemma {:induction false} AnnouncedRun(w: World, es: seq<Event>)
    requires AnnouncedInv(w)
    ensures AnnouncedInv(Run(w, es))
    decreases |es|
  {
    hide Step, AnnouncedInv;
    if es == [] {
    } else {
      AnnouncedStep(w, es[0]);
      AnnouncedRun(Step(w, es[0]), es[1..]);
    }
  }

  /** In every run, for as long as the driver's Apply takes, the snapshot shows the new mode as unknown and being applied. */
  lemma SwitchIsAnnounced(cfg: Config, o: U.Original, es: seq<Event>)
    ensures var w := Run(Start(cfg, o), es);
            w.pc.ApplyingUplink? ==>
              w.st.uplink.mode == w.pc.c.uplink.mode && w.st.uplink.status == UplinkUnknown && w.st.uplink.reason == "applying"
  {
    AnnouncedRun(Start(cfg, o), es);
  }

  /** A call of the driver's ApplySettings. */
  predicate CallsSettings(w: World, e: Event) {
    e.Pass? && w.pc.StageSettings? && w.mem.evpn != Some(w.pc.c.expressvpn)
  }

  /** The settings of the latest call that succeeded in a run, `was` before it. */
  function LastSettings(w: World, es: seq<Event>, was: Option<ExpressVPN>): Option<ExpressVPN>
    decreases |es|
  {
    if es == [] then was
    else
      LastSettings(Step(w, es[0]), es[1..],
                   if CallsSettings(w, es[0]) && es[0].a.ok then Some(w.pc.c.expressvpn) else was)
  }

  lemma SettingsStep(w: World, e: Event)
    ensures Step(w, e).mem.evpn == if CallsSettings(w, e) && e.a.ok then Some(w.pc.c.expressvpn) else w.mem.evpn
  {
    hide U.Apply, U.Step, Validate, NeedsConnect, MayRetry, EffectiveProtocol, Spent, Backoff, U.AwaitedUdp;
  }

  lemma {:induction false} SettingsRun(w: World, es: seq<Event>)
    ensures Run(w, es).mem.evpn == LastSettings(w, es, w.mem.evpn)
    decreases |es|
  {
    hide Step;
    if es == [] {
    } else {
      SettingsStep(w, es[0]);
      SettingsRun(Step(w, es[0]), es[1..]);
    }
  }

  /** In every run the reconciler remembers the settings of the latest successful call, so that after a failed one the next
      pass calls again. */
  lemma SettingsAreRemembered(cfg: Config, o: U.Original, es: seq<Event>)
    ensures Run(Start(cfg, o), es).mem.evpn == LastSettings(Start(cfg, o), es, None)
  {
    SettingsRun(Start(cfg, o), es);
  }
}
