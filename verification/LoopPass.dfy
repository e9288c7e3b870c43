/** Uninterrupted passes: a successful one is a fixpoint; a failed step followed by a revert of the configuration is not
    repaired. */
module LoopPass {
  import opened Wrappers
  import opened Config
  import opened Daemon
  import opened AgentState
  import opened ControlLoop
  import U = UplinkDriver

  function Sections(w: World, answers: seq<Answer>): World
    decreases |answers|
  {
    if answers == [] then w else Sections(Section(w, answers[0]), answers[1..])
  }

  /** The sections of one pass with nothing in between, from Idle back to Idle. */
  ghost predicate OnePass(w: World, answers: seq<Answer>) {
    w.pc.Idle? && answers != [] && Finishes(Section(w, answers[0]), answers[1..])
  }

  ghost predicate Finishes(w: World, answers: seq<Answer>)
    decreases |answers|
  {
    if w.pc.Idle? then answers == [] else answers != [] && Finishes(Section(w, answers[0]), answers[1..])
  }

  /** The driver call of the current section, if it makes one, succeeds. */
  predicate Succeeds(w: World, a: Answer) {
    match w.pc
    case StageKillswitch(_, _) => a.ok
    case ApplyingUplink(c) => U.Apply(w.driver, w.st.uplink.udp, c.uplink, a.uplink).ok
    case StageSettings(_) => a.ok
    case Connecting(_, _, _, before) => a.ok && (a.sessions > before || w.sessions > before)
    case Disconnecting(_) => a.ok
    case _ => true
  }

  ghost predicate AllSucceed(w: World, answers: seq<Answer>)
    decreases |answers|
  {
    answers != [] ==> Succeeds(w, answers[0]) && AllSucceed(Section(w, answers[0]), answers[1..])
  }

  /** The connection is what the user and the configuration ask for. */
  predicate Matches(w: World) {
    if w.st.desired
    then w.st.conn == ConnConnected && (w.mem.conn.None? || w.mem.conn == Some(Want(w.cfg)))
    else w.st.conn == ConnDisconnected || w.st.conn == ConnError
  }

  predicate Quiescent(w: World) {
    && w.pc.Idle? && Matches(w)
    && w.mem.ks == Some(w.cfg.uplink) && w.mem.uplink == Some(w.cfg.uplink) && w.mem.evpn == Some(w.cfg.expressvpn)
    && (w.st.desired ==> w.mem.force.None?)
  }

  /** What an uninterrupted, so far successful pass has achieved by each section. */
  ghost predicate SoFar(w: World) {
    && !w.pc.Idle? && w.pc.c == w.cfg
    && (!w.pc.ReadDesired? && !w.pc.StageKillswitch? ==> w.mem.ks == Some(w.cfg.uplink))
    && (w.pc.UplinkApplied? ==> w.pc.ok)
    && (!InLayers(w.pc) ==> w.mem.uplink == Some(w.cfg.uplink))
    && (!InLayers(w.pc) && !w.pc.StageSettings? ==> w.mem.evpn == Some(w.cfg.expressvpn))
    && (w.pc.Decide? ==> w.pc.desired == w.st.desired && w.pc.conn == w.st.conn)
    && (w.pc.Disconnecting? ==> !w.st.desired)
    && (!InLayers(w.pc) && !InDecision(w.pc) ==> w.st.desired && w.mem.force.None?)
    && !w.pc.AfterFailure?
  }

  lemma SoFarLayers(w: World, a: Answer)
    requires SoFar(w) && Succeeds(w, a) && InLayers(w.pc)
    ensures SoFar(LayerSection(w, a))
  {
    hide U.Apply;
  }

  lemma SoFarDecision(w: World, a: Answer)
    requires SoFar(w) && Succeeds(w, a) && InDecision(w.pc)
    ensures var w' := DecisionSection(w, a); if w'.pc.Idle? then Matches(w') ==> Quiescent(w') else SoFar(w')
    ensures DecisionSection(w, a).cfg == w.cfg
  {
    hide U.Apply, MayRetry;
  }

  lemma SoFarConnection(w: World, a: Answer)
    requires SoFar(w) && Succeeds(w, a) && !InLayers(w.pc) && !InDecision(w.pc)
    ensures var w' := ConnectionSection(w, a); if w'.pc.Idle? then Matches(w') ==> Quiescent(w') else SoFar(w')
  {
    hide U.Apply, U.AwaitedUdp, EffectiveProtocol, Spent, Backoff;
  }

  lemma {:induction false} PassEndsQuiescent(w: World, answers: seq<Answer>)
    requires SoFar(w) && Finishes(w, answers) && AllSucceed(w, answers)
    ensures Matches(Sections(w, answers)) ==> Quiescent(Sections(w, answers))
    decreases |answers|
  {
    hide LayerSection, DecisionSection, ConnectionSection, Matches, Quiescent, Succeeds;
    var w', rest := Section(w, answers[0]), answers[1..];
    if InLayers(w.pc) { SoFarLayers(w, answers[0]); }
    else if InDecision(w.pc) { SoFarDecision(w, answers[0]); }
    else { SoFarConnection(w, answers[0]); }
    if w'.pc.Idle? {
      assert rest == [] && Sections(w', rest) == w';
    } else {
      PassEndsQuiescent(w', rest);
    }
  }

  /** A quiescent pass makes its seven sections and changes nothing. */
  lemma QuiescentPass(w: World, answers: seq<Answer>)
    requires Quiescent(w) && OnePass(w, answers)
    ensures Sections(w, answers) == w
  {
    var c := w.cfg;
    var w1 := QuiescentSection(w, answers, w.(pc := ReadDesired(c)));
    var r1 := answers[1..];
    var w2 := QuiescentSection(w1, r1, w.(pc := StageKillswitch(c, w.st.desired)));
    var r2 := r1[1..];
    var w3 := QuiescentSection(w2, r2, w.(pc := StageUplink(c, w.st.desired)));
    var r3 := r2[1..];
    var w4 := QuiescentSection(w3, r3, w.(pc := StageSettings(c)));
    var r4 := r3[1..];
    var w5 := QuiescentSection(w4, r4, w.(pc := ReadState(c)));
    var r5 := r4[1..];
    var w6 := QuiescentSection(w5, r5, w.(pc := Decide(c, w.st.desired, w.st.conn)));
    var r6 := r5[1..];
    var w7 := QuiescentSection(w6, r6, w);
    assert r6[1..] == [];
  }

  /** One section of it: `next` is where it leads. */
  lemma QuiescentSection(w: World, answers: seq<Answer>, next: World) returns (w': World)
    requires answers != [] && Section(w, answers[0]) == next
    requires w.pc.Idle? || Finishes(w, answers)
    requires w.pc.Idle? ==> Finishes(next, answers[1..])
    ensures w' == next && Sections(w, answers) == Sections(next, answers[1..])
    ensures Finishes(next, answers[1..])
  {
    w' := next;
  }

  /** A pass whose driver calls all succeed and that leaves the connection as wanted is a fixpoint: the next pass, however
      much later, calls no driver and changes no state. */
  lemma SuccessfulPassIsFixpoint(w: World, first: seq<Answer>, later: nat, second: seq<Answer>)
    requires OnePass(w, first) && AllSucceed(w, first)
    requires Matches(Sections(w, first))
    requires OnePass(Step(Sections(w, first), Tick(later)), second)
    ensures Sections(Step(Sections(w, first), Tick(later)), second) == Step(Sections(w, first), Tick(later))
  {
    var w1 := Section(w, first[0]);
    assert SoFar(w1);
    PassEndsQuiescent(w1, first[1..]);
    QuiescentPass(Step(Sections(w, first), Tick(later)), second);
  }

  // ---------- what a failure followed by a revert leaves behind ----------

  /** A failed switch away from an applied socks5 uplink, and the configuration put back: the next pass gets past the uplink
      without an Apply, although the driver has torn the uplink down. */
  lemma RevertSkipsTornDownUplink(w: World, b: Config, ok: Answer, fails: Answer)
    requires w.pc.Idle? && Valid(w.cfg) && Valid(b) && b.uplink != w.cfg.uplink && b.uplink.mode == "socks5"
    requires w.mem.uplink == Some(w.cfg.uplink) && w.driver.applied == w.mem.uplink && U.IsSocks5(w.driver.applied)
    requires ok.ok && fails.uplink.ip.None?
    ensures var w1 := Sections(Step(w, SetConfig(b)), [ok, ok, ok, ok, fails, ok]);
            && w1.pc.Idle? && w1.driver.applied.None?
            && var w2 := Sections(Step(w1, SetConfig(w.cfg)), [ok, ok, ok, ok]);
            && w2.pc.StageSettings? && w2.mem.uplink == Some(w.cfg.uplink) && w2.driver == w1.driver
  {
    hide Sections, Section, Validate;
    FailedSwitch(Step(w, SetConfig(b)), ok, fails);
    var w1 := Sections(Step(w, SetConfig(b)), [ok, ok, ok, ok, fails, ok]);
    AppliedUplinkIsSkipped(Step(w1, SetConfig(w.cfg)), ok);
  }

  lemma FailedSwitch(w: World, ok: Answer, fails: Answer)
    requires w.pc.Idle? && w.cfg.uplink.mode == "socks5" && w.mem.uplink != Some(w.cfg.uplink)
    requires U.IsSocks5(w.driver.applied) && w.driver.applied == w.mem.uplink
    requires ok.ok && fails.uplink.ip.None?
    ensures var w1 := Sections(w, [ok, ok, ok, ok, fails, ok]);
            w1.pc.Idle? && w1.driver.applied.None? && w1.mem.uplink == w.mem.uplink && w1.cfg == w.cfg
  {
    hide U.RestoreHostRoutes, U.WithoutTun, U.ApplyRoutes;
    var v1 := Section(w, ok);
    var v2 := Section(v1, ok);
    var v3 := Section(v2, ok);
    assert v3.pc.StageUplink?;
    var v4 := Section(v3, ok);
    assert v4.pc.ApplyingUplink? && v4.driver == w.driver;
    var v5 := Section(v4, fails);
    assert v5.driver.applied.None?;
    Unroll6(w, ok, ok, ok, ok, fails, ok);
  }

  lemma AppliedUplinkIsSkipped(w: World, ok: Answer)
    requires w.pc.Idle? && w.mem.uplink == Some(w.cfg.uplink) && ok.ok
    ensures var w' := Sections(w, [ok, ok, ok, ok]);
            w'.pc.StageSettings? && w'.mem.uplink == w.mem.uplink && w'.driver == w.driver
  {
    hide U.Apply;
    var u1 := Section(w, ok);
    var u2 := Section(u1, ok);
    var u3 := Section(u2, ok);
    assert u3.pc.StageUplink?;
    Unroll4(w, ok, ok, ok, ok);
  }

  /** After a successful pass, a failed kill switch Apply for another configuration, and the configuration put back: the
      next pass, and so every later one, ends with the kill switch shown as inactive, although the rules in place are the
      configured ones. */
  lemma RevertLeavesKillswitchInactive(w: World, b: Config, ok: Answer, fails: Answer, second: seq<Answer>)
    requires Quiescent(w) && Valid(w.cfg) && Valid(b) && b.uplink != w.cfg.uplink && w.h.ksOk == w.mem.ks
    requires !fails.ok
    ensures var w1 := Sections(Step(w, SetConfig(b)), [ok, ok, fails]);
            && w1.pc.Idle?
            && (OnePass(Step(w1, SetConfig(w.cfg)), second) ==>
                  var w2 := Sections(Step(w1, SetConfig(w.cfg)), second);
                  Quiescent(w2) && !w2.st.ksActive && w2.h.ksOk == Some(w2.cfg.uplink))
  {
    hide Validate, U.Apply, OnePass;
    var v0 := Step(w, SetConfig(b));
    var v1 := Section(v0, ok);
    var v2 := Section(v1, ok);
    var v3 := Section(v2, fails);
    Unroll3(v0, ok, ok, fails);
    var u0 := Step(v3, SetConfig(w.cfg));
    if OnePass(u0, second) {
      QuiescentPass(u0, second);
    }
  }

  // ---------- `connecting` that nobody is doing ----------

  predicate Attempting(pc: Pc) {
    pc.Disconnecting? || (!pc.Idle? && !InLayers(pc) && !InDecision(pc))
  }

  /** A connection is wanted and `connecting` is shown, but no attempt is under way and nothing leads to one: no force, and
      no uplink switch to bring one. */
  predicate Stranded(w: World) {
    && w.st.desired && w.st.conn == ConnConnecting && w.mem.force.None?
    && !Attempting(w.pc) && !w.pc.ApplyingUplink? && !w.pc.UplinkApplied?
    && w.mem.uplink == Some(w.cfg.uplink) && (!w.pc.Idle? ==> w.pc.c.uplink == w.cfg.uplink)
    && (w.pc.Decide? ==> w.pc.desired && w.pc.conn == ConnConnecting)
  }

  predicate Rescues(w: World, e: Event) {
    || e.WantDisconnected? || e.LoggedOut? || e.MarkReconnecting? || e.ForceReconnect? || e.DaemonCrash? || e.DaemonNotReady?
    || (e.DaemonReady? && e.polled != ConnConnecting)
    || (e.SetConfig? && Valid(e.c) && e.c.uplink != w.cfg.uplink)
  }

  lemma StrandedSection(w: World, a: Answer)
    requires Stranded(w)
    ensures Stranded(Section(w, a))
  {
    hide U.Apply, ConnectionSection;
  }

  /** What ends it is exactly: a disconnect or logout, the two steps of a reconnect, a crash or a different start-up of the
      daemon, or another uplink. No section of a pass does, no poll, no passing of time and no connect by the user. */
  lemma StrandedUntilRescued(w: World, e: Event)
    requires Stranded(w)
    ensures Stranded(Step(w, e)) <==> !Rescues(w, e)
  {
    hide U.Step, Validate, Section;
    if e.Pass? { StrandedSection(w, e.a); }
  }

  ghost predicate NeverRescued(w: World, es: seq<Event>)
    decreases |es|
  {
    es != [] ==> !Rescues(w, es[0]) && NeverRescued(Step(w, es[0]), es[1..])
  }

  /** So over a run without those, `connecting` stays and the driver is never asked to connect. */
  lemma {:induction false} StrandedForGood(w: World, es: seq<Event>)
    requires Stranded(w) && NeverRescued(w, es)
    ensures Stranded(Run(w, es))
    ensures forall i | 0 <= i <= |es| :: !Run(w, es[..i]).pc.Connecting?
    decreases |es|
  {
    hide Step, Rescues;
    if es == [] {
      assert es[..0] == es;
    } else {
      StrandedUntilRescued(w, es[0]);
      StrandedForGood(Step(w, es[0]), es[1..]);
      forall i | 0 <= i <= |es| ensures !Run(w, es[..i]).pc.Connecting? {
        if i > 0 { assert es[..i][0] == es[0] && es[..i][1..] == es[1..][..i - 1]; }
      }
    }
  }

  // ---------- runs from the start that get there ----------

  function Passes(answers: seq<Answer>): (es: seq<Event>)
    ensures |es| == |answers|
  {
    seq(|answers|, i requires 0 <= i < |answers| => Pass(answers[i]))
  }

  lemma {:induction false} RunOfPasses(w: World, answers: seq<Answer>)
    ensures Run(w, Passes(answers)) == Sections(w, answers)
    decreases |answers|
  {
    hide Section;
    if answers == [] {
    } else {
      assert Passes(answers)[0] == Pass(answers[0]) && Passes(answers)[1..] == Passes(answers[1..]);
      RunOfPasses(Section(w, answers[0]), answers[1..]);
    }
  }

  /** A run of sections, an event, and sections again. */
  lemma RunAround(w: World, first: seq<Answer>, e: Event, second: seq<Answer>)
    ensures Run(w, Passes(first) + [e] + Passes(second)) == Sections(Step(Sections(w, first), e), second)
  {
    hide Run, Step, Sections;
    RunOfPasses(w, first);
    var w1 := Sections(w, first);
    RunAppend(w, Passes(first) + [e], Passes(second));
    RunAppend(w, Passes(first), [e]);
    RunCons(w1, [e]);
    RunNothing(Step(w1, e), [e][1..]);
    RunOfPasses(Step(w1, e), second);
  }

  function Times(n: nat, a: Answer): seq<Answer> {
    seq(n, _ => a)
  }

  lemma SectionsTimes(w: World, n: nat, a: Answer)
    ensures n == 0 ==> Sections(w, Times(n, a)) == w
    ensures n > 0 ==> Sections(w, Times(n, a)) == Sections(Section(w, a), Times(n - 1, a))
  {
    hide Section;
    if n > 0 {
      assert Times(n, a)[1..] == Times(n - 1, a);
    }
  }

  predicate SuccessfulStart(cfg: Config, o: U.Original, a: Answer) {
    Valid(cfg) && a.ok && U.Apply(U.Fresh(o), TriUnknown, cfg.uplink, a.uplink).ok
  }

  /** With the container as Docker starts it and every command working, the start succeeds. */
  lemma StartSucceeds(cfg: Config, o: U.Original, a: Answer)
    requires U.Pristine(o) && Valid(cfg) && a.ok && U.AllWorks(a.uplink)
    ensures SuccessfulStart(cfg, o, a)
  {
    hide U.ApplyRoutes, U.Teardown;
    assert U.Get(o.table, U.Default(0)) == Some(U.Hop(o.gw, U.ETH));
  }

  /** The first pass, with nothing asked of the connection and every driver call answered with success. */
  lemma FirstPass(cfg: Config, o: U.Original, a: Answer)
    requires SuccessfulStart(cfg, o, a)
    ensures var w := Sections(Start(cfg, o), Times(9, a));
            && w.cfg == cfg && Quiescent(w) && !w.st.desired && w.mem.conn.None? && w.mem.force.None?
            && w.st.conn == ConnDisconnected && w.h.ksOk == w.mem.ks && !w.h.lastApplyFailed
            && w.driver == U.Apply(U.Fresh(o), TriUnknown, cfg.uplink, a.uplink).d
  {
    hide U.Apply, Sections, ConnectionSection, Validate;
    var w0 := Start(cfg, o);
    SectionsTimes(w0, 9, a);
    var w1 := Section(w0, a);
    SectionsTimes(w1, 8, a);
    var w2 := Section(w1, a);
    SectionsTimes(w2, 7, a);
    var w3 := Section(w2, a);
    SectionsTimes(w3, 6, a);
    var w4 := Section(w3, a);
    assert w4.pc.ApplyingUplink? && w4.driver == U.Fresh(o) && w4.st.uplink.udp == TriUnknown;
    SectionsTimes(w4, 5, a);
    var w5 := Section(w4, a);
    SectionsTimes(w5, 4, a);
    var w6 := Section(w5, a);
    assert w6.pc.StageSettings?;
    SectionsTimes(w6, 3, a);
    var w7 := Section(w6, a);
    SectionsTimes(w7, 2, a);
    var w8 := Section(w7, a);
    SectionsTimes(w8, 1, a);
    var w9 := Section(w8, a);
    SectionsTimes(w9, 0, a);
  }

  /** A pass over a quiescent world has seven sections. */
  lemma QuiescentSeven(w: World, a: Answer)
    requires Quiescent(w)
    ensures Sections(w, Times(7, a)) == w
  {
    hide Sections, U.Apply, ConnectionSection;
    var c := w.cfg;
    SectionsTimes(w, 7, a);
    var w1 := w.(pc := ReadDesired(c));
    SectionsTimes(w1, 6, a);
    var w2 := w.(pc := StageKillswitch(c, w.st.desired));
    SectionsTimes(w2, 5, a);
    var w3 := w.(pc := StageUplink(c, w.st.desired));
    SectionsTimes(w3, 4, a);
    var w4 := w.(pc := StageSettings(c));
    SectionsTimes(w4, 3, a);
    var w5 := w.(pc := ReadState(c));
    SectionsTimes(w5, 2, a);
    var w6 := w.(pc := Decide(c, w.st.desired, w.st.conn));
    SectionsTimes(w6, 1, a);
    SectionsTimes(w, 0, a);
  }

  /** The engine of an applied socks5 uplink dies: the next whole pass changes nothing, so neither does any later one. */
  lemma DeadEngineStaysDead(cfg: Config, o: U.Original, a: Answer, drops: bool)
    requires SuccessfulStart(cfg, o, a) && cfg.uplink.mode == "socks5"
    ensures var w := Run(Start(cfg, o), Passes(Times(9, a)) + [EngineDies(drops)] + Passes(Times(7, a)));
            && Quiescent(w) && w.driver.applied == w.mem.uplink == Some(cfg.uplink) && !w.driver.engine && !w.h.lastApplyFailed
            && Sections(w, Times(7, a)) == w
  {
    hide Sections, Run, U.ApplySocks5;
    FirstPass(cfg, o, a);
    AppliedIsRemembered(cfg.uplink, o, a);
    var w := Sections(Start(cfg, o), Times(9, a));
    RunAround(Start(cfg, o), Times(9, a), EngineDies(drops), Times(7, a));
    QuiescentSeven(Step(w, EngineDies(drops)), a);
  }

  lemma AppliedIsRemembered(u: Uplink, o: U.Original, a: Answer)
    requires u.mode == "socks5" && U.Apply(U.Fresh(o), TriUnknown, u, a.uplink).ok
    ensures U.Apply(U.Fresh(o), TriUnknown, u, a.uplink).d.applied == Some(u)
  {
    hide U.ApplyRoutes, U.DetectGateway, U.Teardown;
  }

  /** It happens: the daemon comes up connecting, and the user's connect finds it so. */
  lemma StartUpCanStrand(cfg: Config, o: U.Original, a: Answer)
    requires SuccessfulStart(cfg, o, a)
    ensures var w := Run(Start(cfg, o), Passes(Times(9, a)) + [DaemonReady(ConnConnecting)]);
            Stranded(Step(Step(w, WantConnected), ResetRetries))
  {
    hide Run, U.Apply, Sections, Passes;
    FirstPass(cfg, o, a);
    RunOfPasses(Start(cfg, o), Times(9, a));
    var w := Sections(Start(cfg, o), Times(9, a));
    var ready := DaemonReady(ConnConnecting);
    RunAppend(Start(cfg, o), Passes(Times(9, a)), [ready]);
    RunCons(w, [ready]);
    RunNothing(Step(w, ready), [ready][1..]);
  }

  /** The run of RevertSkipsTornDownUplink, from the start. */
  lemma RevertSkipsTornDownUplinkInARun(cfg: Config, b: Config, o: U.Original, a: Answer, fails: Answer)
    requires SuccessfulStart(cfg, o, a) && cfg.uplink.mode == "socks5"
    requires Valid(b) && b.uplink != cfg.uplink && b.uplink.mode == "socks5" && fails.uplink.ip.None?
    ensures var w1 := Run(Start(cfg, o), Passes(Times(9, a)) + [SetConfig(b)] + Passes([a, a, a, a, fails, a]));
            && w1.pc.Idle? && w1.driver.applied.None?
            && var w2 := Sections(Step(w1, SetConfig(cfg)), [a, a, a, a]);
               w2.pc.StageSettings? && w2.mem.uplink == Some(cfg.uplink) && w2.driver == w1.driver
  {
    hide Sections, Run, Step, Section, Validate, U.Apply;
    FirstPass(cfg, o, a);
    AppliedIsRemembered(cfg.uplink, o, a);
    var w := Sections(Start(cfg, o), Times(9, a));
    RunAround(Start(cfg, o), Times(9, a), SetConfig(b), [a, a, a, a, fails, a]);
    RevertSkipsTornDownUplink(w, b, a, fails);
  }

  /** The run of RevertLeavesKillswitchInactive, from the start. */
  lemma RevertLeavesKillswitchInactiveInARun(cfg: Config, b: Config, o: U.Original, a: Answer, fails: Answer)
    requires SuccessfulStart(cfg, o, a) && Valid(b) && b.uplink != cfg.uplink && !fails.ok
    ensures var w1 := Run(Start(cfg, o), Passes(Times(9, a)) + [SetConfig(b)] + Passes([a, a, fails]));
            && w1.pc.Idle?
            && var w2 := Sections(Step(w1, SetConfig(cfg)), Times(7, a));
               Quiescent(w2) && !w2.st.ksActive && w2.h.ksOk == Some(cfg.uplink)
  {
    hide Run, U.Apply, Validate;
    FirstPass(cfg, o, a);
    var w := Sections(Start(cfg, o), Times(9, a));
    RunAround(Start(cfg, o), Times(9, a), SetConfig(b), [a, a, fails]);
    var v0 := Step(w, SetConfig(b));
    Unroll3(v0, a, a, fails);
    var u0 := Step(Section(Section(Section(v0, a), a), fails), SetConfig(cfg));
    QuiescentSeven(u0, a);
  }

  lemma Unroll3(w: World, a: Answer, b: Answer, c: Answer)
    ensures Sections(w, [a, b, c]) == Section(Section(Section(w, a), b), c)
  {
    hide Section;
    assert [a, b, c][1..] == [b, c] && [b, c][1..] == [c] && [c][1..] == [];
    var w2 := Section(Section(w, a), b);
    assert Sections(w2, [c]) == Section(w2, c);
  }

  lemma Unroll4(w: World, a: Answer, b: Answer, c: Answer, d: Answer)
    ensures Sections(w, [a, b, c, d]) == Section(Section(Section(Section(w, a), b), c), d)
  {
    hide Section;
    assert [a, b, c, d][1..] == [b, c, d];
    Unroll3(Section(w, a), b, c, d);
  }

  lemma Unroll6(w: World, a: Answer, b: Answer, c: Answer, d: Answer, e: Answer, f: Answer)
    ensures Sections(w, [a, b, c, d, e, f]) == Section(Section(Section(Section(Section(Section(w, a), b), c), d), e), f)
  {
    hide Section;
    assert [a, b, c, d, e, f][1..] == [b, c, d, e, f] && [b, c, d, e, f][1..] == [c, d, e, f];
    Unroll4(Section(Section(w, a), b), c, d, e, f);
  }
}
