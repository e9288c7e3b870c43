/** What one whole pass of the reconciler achieves, however long its calls take: when it connects, what it ends with, and
    what a failing call leaves behind. */
module PassOutcome {
  import opened Wrappers
  import opened Config
  import opened Daemon
  import opened AgentState
  import opened ControlLoop
  import U = UplinkDriver
  import LoopPass
  import LoopSafety

  // ---------- when a pass connects ----------

  predicate Due(m: Memory, now: nat) {
    m.failures < 10 && now > m.nextRetryAt
  }

  /** Shown as down, or as up for another location or protocol. */
  predicate Unmet(w: World) {
    || w.st.conn == ConnDisconnected || w.st.conn == ConnReconnecting || w.st.conn == ConnError
    || (w.st.conn == ConnConnected && w.mem.conn.Some?
        && w.mem.conn.value != ConnSpec(w.cfg.expressvpn.location, w.cfg.expressvpn.protocol))
  }

  /** A connection is wanted, and a reconnect was asked for or an applied uplink is replaced, whatever is shown; or an
      attempt is due at `now` and the connection is not what it should be, or stands on an uplink about to be applied. */
  predicate Warranted(w: World, now: nat) {
    && w.st.desired
    && (|| w.mem.force.Some?
        || (w.mem.uplink.Some? && w.mem.uplink.value != w.cfg.uplink)
        || (Due(w.mem, now) && (Unmet(w) || (w.st.conn == ConnConnected && w.mem.uplink != Some(w.cfg.uplink)))))
  }

  /** The same with the uplink settled. */
  predicate Settled(w: World, now: nat) {
    w.st.desired && (w.mem.force.Some? || (Due(w.mem, now) && Unmet(w)))
  }

  predicate UplinkAhead(pc: Pc) {
    pc.ReadDesired? || pc.StageKillswitch? || pc.StageUplink?
  }

  predicate UplinkBehind(pc: Pc) {
    pc.ApplyingUplink? || pc.UplinkApplied? || pc.StageSettings? || pc.ReadState? || pc.Decide?
  }

  predicate Connects(pc: Pc) {
    pc.MarkConnecting? || pc.ReadUdp? || pc.AwaitUdp? || pc.PublishUdp? || pc.ChooseProtocol? || pc.Connecting?
  }

  /** What the pass has read agrees with what is shown. */
  predicate UpToDate(w: World) {
    && !w.pc.Idle? && w.pc.c == w.cfg
    && (w.pc.StageKillswitch? ==> w.pc.wasDesired == w.st.desired)
    && (w.pc.StageUplink? ==> w.pc.wasDesired == w.st.desired)
    && (w.pc.UplinkApplied? ==> w.pc.ok)
    && (w.pc.Decide? ==> w.pc.desired == w.st.desired && w.pc.conn == w.st.conn)
  }

  /** The pass is going to connect. */
  predicate Heading(w: World) {
    && UpToDate(w)
    && (UplinkAhead(w.pc) ==> Warranted(w, w.now))
    && (UplinkBehind(w.pc) ==> Settled(w, w.now))
    && (UplinkAhead(w.pc) || UplinkBehind(w.pc) || Connects(w.pc))
  }

  /** The pass is not going to connect, if it decides at `until` or before. */
  predicate Avoiding(w: World, until: nat) {
    || w.pc.Idle? || w.pc.Disconnecting?
    || (&& UpToDate(w)
        && (UplinkAhead(w.pc) ==> !Warranted(w, until))
        && (UplinkBehind(w.pc) ==> !Settled(w, until))
        && (UplinkAhead(w.pc) || UplinkBehind(w.pc)))
  }

  /** The kill switch and the uplink, where they are called, succeed. */
  predicate LayerSucceeds(w: World, a: Answer) {
    && (w.pc.StageKillswitch? && w.mem.ks != Some(w.pc.c.uplink) ==> a.ok)
    && (w.pc.ApplyingUplink? ==> U.Apply(w.driver, w.st.uplink.udp, w.pc.c.uplink, a.uplink).ok)
  }

  ghost predicate LayersSucceed(w: World, es: seq<Event>)
    decreases |es|
  {
    es != [] ==> (es[0].Pass? ==> LayerSucceeds(w, es[0].a)) && LayersSucceed(Step(w, es[0]), es[1..])
  }

  /** Every driver call of the run succeeds. */
  ghost predicate CallsSucceed(w: World, es: seq<Event>)
    decreases |es|
  {
    es != [] ==> (es[0].Pass? ==> LoopPass.Succeeds(w, es[0].a)) && CallsSucceed(Step(w, es[0]), es[1..])
  }

  /** The driver's connect is called, and returns, in the run. */
  ghost predicate CallsConnect(w: World, es: seq<Event>)
    decreases |es|
  {
    es != [] && ((w.pc.Connecting? && es[0].Pass?) || CallsConnect(Step(w, es[0]), es[1..]))
  }

  lemma {:induction false} SuccessIncludesLayers(w: World, es: seq<Event>)
    requires CallsSucceed(w, es)
    ensures LayersSucceed(w, es)
    decreases |es|
  {
    hide Step, U.Apply;
    if es == [] {
    } else {
      SuccessIncludesLayers(Step(w, es[0]), es[1..]);
    }
  }

  lemma HeadingLayers(w: World, a: Answer)
    requires Heading(w) && InLayers(w.pc) && LayerSucceeds(w, a)
    ensures Heading(LayerSection(w, a))
  {
    hide U.Apply;
  }

  lemma HeadingDecision(w: World, a: Answer)
    requires Heading(w) && InDecision(w.pc)
    ensures Heading(DecisionSection(w, a))
  {
  }

  lemma HeadingConnection(w: World, a: Answer)
    requires Heading(w) && Connects(w.pc) && !w.pc.Connecting?
    ensures Heading(ConnectionSection(w, a))
  {
    hide EffectiveProtocol, U.AwaitedUdp, Warranted, Settled, ConnectSection;
  }

  lemma HeadingStep(w: World, e: Event)
    requires Heading(w) && Goes(e) && (e.Pass? ==> LayerSucceeds(w, e.a) && !w.pc.Connecting?)
    ensures Heading(Step(w, e))
  {
    hide LayerSection, DecisionSection, ConnectionSection, LayerSucceeds;
    if e.Pass? {
      if InLayers(w.pc) { HeadingLayers(w, e.a); }
      else if InDecision(w.pc) { HeadingDecision(w, e.a); }
      else { HeadingConnection(w, e.a); }
    }
  }

  lemma {:induction false} HeadingRun(w: World, es: seq<Event>)
    requires Heading(w) && InPass(w, es) && LayersSucceed(w, es) && Run(w, es).pc.Idle?
    ensures CallsConnect(w, es)
    decreases |es|
  {
    hide Step, LayerSucceeds;
    if es == [] {
      assert false;
    } else if !(w.pc.Connecting? && es[0].Pass?) {
      HeadingStep(w, es[0]);
      HeadingRun(Step(w, es[0]), es[1..]);
    }
  }

  lemma {:induction false} TimePasses(w: World, es: seq<Event>)
    requires InPass(w, es)
    ensures Run(w, es).now >= w.now
    decreases |es|
  {
    hide Section;
    if es == [] {
    } else {
      SectionTakesNoTime(w, es[0]);
      TimePasses(Step(w, es[0]), es[1..]);
    }
  }

  lemma SectionTakesNoTime(w: World, e: Event)
    requires Goes(e)
    ensures Step(w, e).now >= w.now
  {
    hide U.Apply, NeedsConnect, MayRetry, EffectiveProtocol, Spent, Backoff, U.AwaitedUdp;
  }

  lemma AvoidingLayers(w: World, a: Answer, until: nat)
    requires Avoiding(w, until) && InLayers(w.pc) && LayerSucceeds(w, a)
    ensures Avoiding(LayerSection(w, a), until)
  {
    hide U.Apply;
  }

  lemma AvoidingDecision(w: World, a: Answer, until: nat)
    requires Avoiding(w, until) && InDecision(w.pc) && !w.pc.Idle? && w.now <= until
    ensures Avoiding(DecisionSection(w, a), until)
  {
  }

  lemma AvoidingStep(w: World, e: Event, until: nat)
    requires Avoiding(w, until) && !w.pc.Idle? && Goes(e) && w.now <= until && (e.Pass? ==> LayerSucceeds(w, e.a))
    ensures Avoiding(Step(w, e), until)
  {
    hide LayerSection, DecisionSection, ConnectionSection, LayerSucceeds;
    if e.Pass? {
      if InLayers(w.pc) { AvoidingLayers(w, e.a, until); }
      else { AvoidingDecision(w, e.a, until); }
    }
  }

  lemma {:induction false} AvoidingRun(w: World, es: seq<Event>, until: nat)
    requires Avoiding(w, until) && InPass(w, es) && LayersSucceed(w, es) && Run(w, es).now <= until
    ensures !CallsConnect(w, es)
    decreases |es|
  {
    hide Step, LayerSucceeds;
    if es == [] {
    } else {
      TimePasses(w, es);
      AvoidingStep(w, es[0], until);
      AvoidingRun(Step(w, es[0]), es[1..], until);
    }
  }

  /** A whole pass whose kill switch and uplink calls succeed calls the driver's connect exactly when a connection is
      warranted as it begins, unless an attempt becomes due while the pass runs. */
  lemma PassConnectsIff(w: World, es: seq<Event>)
    requires WholePass(w, es) && LayersSucceed(w, es)
    requires Due(w.mem, w.now) == Due(w.mem, Run(w, es).now)
    ensures CallsConnect(w, es) <==> Warranted(w, w.now)
  {
    hide Section, Run, LayerSucceeds;
    var w1, rest := w.(pc := ReadDesired(w.cfg)), es[1..];
    Begins(w, es);
    if Warranted(w, w.now) {
      HeadingRun(w1, rest);
    } else {
      AvoidingRun(w1, rest, Run(w, es).now);
    }
  }

  lemma Begins(w: World, es: seq<Event>)
    requires WholePass(w, es)
    ensures Step(w, es[0]) == w.(pc := ReadDesired(w.cfg))
    ensures Run(w, es) == Run(w.(pc := ReadDesired(w.cfg)), es[1..])
    ensures CallsConnect(w, es) == CallsConnect(w.(pc := ReadDesired(w.cfg)), es[1..])
  {
  }

  // ---------- what a pass that connects ends with ----------

  /** The world in which the driver's connect returns, and its answer. */
  ghost function ConnectCall(w: World, es: seq<Event>): (World, Answer)
    requires CallsConnect(w, es)
    decreases |es|
  {
    if w.pc.Connecting? && es[0].Pass? then (w, es[0].a) else ConnectCall(Step(w, es[0]), es[1..])
  }

  /** The driver's connect returned nil: its caller may rely on a session that was not there at the call. */
  predicate ReturnsNil(at: World, a: Answer)
    requires at.pc.Connecting?
  {
    a.ok && (a.sessions > at.pc.sessionsBefore || at.sessions > at.pc.sessionsBefore)
  }

  predicate EndsConnected(at: World, end: World)
    requires at.pc.Connecting?
  {
    && end.st.conn == ConnConnected && end.st.lastError == None && end.sessions > at.pc.sessionsBefore
    && end.mem.conn == Some(ConnSpec(at.cfg.expressvpn.location, at.cfg.expressvpn.protocol))
    && end.mem.failures == 0 && end.mem.nextRetryAt < 0
    && (at.cfg.expressvpn.location != "" ==> end.st.location == at.cfg.expressvpn.location)
  }

  /** One more failure, its error shown, and the next attempt scheduled unless this was the tenth. */
  predicate EndsFailed(at: World, code: string, end: World) {
    var n := at.mem.failures + 1;
    && end.st.conn == ConnError && end.mem.failures == n
    && end.st.lastError == Some(if n >= 10 then "reconnect_exhausted" else code)
    && (n < 10 ==> end.mem.nextRetryAt == at.now + LoopSafety.RetryDelay(n))
  }

  lemma AfterFailureEnds(w: World, es: seq<Event>)
    requires w.pc.AfterFailure? && InPass(w, es) && Run(w, es).pc.Idle?
    ensures var end := Run(w, es);
            && end.st.conn == ConnError && end.mem == w.mem
            && end.st.lastError == Some(if w.pc.n >= 10 then "reconnect_exhausted" else w.pc.code)
    decreases |es|
  {
    hide LayerSection, DecisionSection;
    if es == [] {
      assert false;
    } else {
      if es[0].Pass? {
        assert Step(w, es[0]).pc.Idle? && es[1..] == [];
      } else {
        AfterFailureEnds(Step(w, es[0]), es[1..]);
      }
    }
  }

  lemma ConnectReturns(w: World, es: seq<Event>)
    requires w.pc.Connecting? && w.pc.c == w.cfg && es != [] && es[0].Pass? && InPass(w, es) && Run(w, es).pc.Idle?
    ensures if ReturnsNil(w, es[0].a) then EndsConnected(w, Run(w, es)) else EndsFailed(w, es[0].a.code, Run(w, es))
  {
    hide LayerSection, DecisionSection, Spent, Backoff, LoopSafety.RetryDelay;
    var w1 := Step(w, es[0]);
    assert w1 == ConnectSection(w, es[0].a);
    if ReturnsNil(w, es[0].a) {
      assert w1.pc.Idle? && es[1..] == [];
      assert Run(w1, es[1..]) == w1;
    } else {
      AfterFailureEnds(w1, es[1..]);
      LoopSafety.BackoffIs(w.mem.failures + 1);
    }
  }

  /** What is shown while a pass connects, when `shown` was shown before. */
  function Announced(shown: Connection): Connection {
    if shown == ConnConnected || shown == ConnReconnecting then ConnReconnecting else ConnConnecting
  }

  /** What the pass keeps on its way from `w0`, or from the call in it, to the driver's connect. */
  predicate OnTheWay(w0: World, w: World) {
    && w.cfg == w0.cfg && w.mem.failures == w0.mem.failures && w.now >= w0.now && w.sessions >= w0.sessions
    && (w.pc.Connecting? ==> w.pc.sessionsBefore >= w0.sessions)
    && (if w.pc.MarkConnecting? || !Connects(w.pc)
        then w.st.conn == w0.st.conn || (w0.st.conn == ConnConnected && w.st.conn == ConnReconnecting)
        else w.st.conn == Announced(w0.st.conn))
    && (w.pc.Connecting? ==>
          && w.st.protocol.effective == w.pc.effective && w.st.protocol.requested == Requested(w.cfg)
          && exists udp :: (w.st.protocol.effective, w.st.protocol.reason) == EffectiveProtocol(Requested(w.cfg), w.cfg.uplink.mode, udp))
  }

  lemma OnTheWayLayers(w0: World, w: World, a: Answer)
    requires OnTheWay(w0, w) && Heading(w) && InLayers(w.pc) && LayerSucceeds(w, a)
    ensures OnTheWay(w0, LayerSection(w, a))
  {
    hide U.Apply, EffectiveProtocol;
  }

  lemma OnTheWayDecision(w0: World, w: World, a: Answer)
    requires OnTheWay(w0, w) && Heading(w) && InDecision(w.pc)
    ensures OnTheWay(w0, DecisionSection(w, a))
  {
    hide EffectiveProtocol;
  }

  lemma OnTheWayConnection(w0: World, w: World, a: Answer)
    requires OnTheWay(w0, w) && Heading(w) && Connects(w.pc) && !w.pc.Connecting?
    ensures OnTheWay(w0, ConnectionSection(w, a))
  {
    hide EffectiveProtocol, U.AwaitedUdp, Warranted, Settled, ConnectSection;
    var w' := ConnectionSection(w, a);
    if w.pc.ChooseProtocol? {
      assert (w'.st.protocol.effective, w'.st.protocol.reason) == EffectiveProtocol(Requested(w.cfg), w.cfg.uplink.mode, w.pc.udp);
    }
  }

  lemma OnTheWayStep(w0: World, w: World, e: Event)
    requires OnTheWay(w0, w) && Heading(w) && Goes(e) && (e.Pass? ==> LayerSucceeds(w, e.a) && !w.pc.Connecting?)
    ensures OnTheWay(w0, Step(w, e))
  {
    hide LayerSection, DecisionSection, ConnectionSection, LayerSucceeds, EffectiveProtocol;
    if e.Pass? {
      if InLayers(w.pc) { OnTheWayLayers(w0, w, e.a); }
      else if InDecision(w.pc) { OnTheWayDecision(w0, w, e.a); }
      else { OnTheWayConnection(w0, w, e.a); }
    }
  }

  lemma {:induction false} ConnectOutcome(w0: World, w: World, es: seq<Event>)
    requires OnTheWay(w0, w) && Heading(w) && InPass(w, es) && LayersSucceed(w, es) && Run(w, es).pc.Idle?
    ensures CallsConnect(w, es)
    ensures var (at, a) := ConnectCall(w, es);
            && at.pc.Connecting? && OnTheWay(w0, at)
            && if ReturnsNil(at, a) then EndsConnected(at, Run(w, es)) else EndsFailed(at, a.code, Run(w, es))
    decreases |es|
  {
    hide Step, LayerSucceeds, OnTheWay, EndsConnected, EndsFailed, ReturnsNil, Heading;
    HeadingIsInside(w);
    if es == [] {
      assert false;
    } else if w.pc.Connecting? && es[0].Pass? {
      ConnectReturns(w, es);
    } else {
      HeadingStep(w, es[0]);
      OnTheWayStep(w0, w, es[0]);
      ConnectOutcome(w0, Step(w, es[0]), es[1..]);
    }
  }

  lemma HeadingIsInside(w: World)
    requires Heading(w)
    ensures !w.pc.Idle? && w.pc.c == w.cfg
  {
  }

  /** A pass that is to connect does, announces it, publishes the protocol it hands over, and ends connected with a new
      session, or in error with the next attempt scheduled, as the driver's connect answers. */
  lemma WarrantedPassConnects(w: World, es: seq<Event>)
    requires WholePass(w, es) && LayersSucceed(w, es) && Warranted(w, w.now)
    ensures CallsConnect(w, es)
    ensures var (at, a) := ConnectCall(w, es);
            && at.pc.Connecting? && OnTheWay(w, at)
            && if ReturnsNil(at, a) then EndsConnected(at, Run(w, es)) else EndsFailed(at, a.code, Run(w, es))
  {
    hide Section, Run, LayerSucceeds, EndsConnected, EndsFailed, ReturnsNil;
    Begins(w, es);
    ConnectOutcome(w, w.(pc := ReadDesired(w.cfg)), es[1..]);
  }

  // ---------- what every successful pass achieves ----------

  /** Connected, and on its way through a pass that may connect anew. */
  predicate KeepsConnected(w: World) {
    && w.st.desired
    && (w.pc.Idle? || (w.pc.c == w.cfg && w.mem.uplink == Some(w.cfg.uplink)))
    && (Connects(w.pc) ||
        (&& w.st.conn == ConnConnected
         && (w.pc.Idle? || UplinkAhead(w.pc) || w.pc.StageSettings? || w.pc.ReadState?
             || (w.pc.Decide? && w.pc.desired))))
  }

  lemma KeepsConnectedStep(w: World, e: Event)
    requires KeepsConnected(w) && !w.pc.Idle? && Goes(e) && (e.Pass? ==> LoopPass.Succeeds(w, e.a))
    ensures KeepsConnected(Step(w, e))
  {
    hide U.Apply, NeedsConnect, MayRetry, EffectiveProtocol, Spent, Backoff, U.AwaitedUdp;
  }

  lemma {:induction false} KeepsConnectedRun(w: World, es: seq<Event>)
    requires KeepsConnected(w) && InPass(w, es) && CallsSucceed(w, es)
    ensures KeepsConnected(Run(w, es))
    decreases |es|
  {
    hide Step, KeepsConnected, LoopPass.Succeeds;
    if es == [] {
    } else {
      KeepsConnectedStep(w, es[0]);
      KeepsConnectedRun(Step(w, es[0]), es[1..]);
    }
  }

  function Released(conn: Connection): Connection {
    if conn == ConnError then ConnError else ConnDisconnected
  }

  /** Not wanted: the pass connects nothing, and disconnects what is shown. */
  predicate LetsGo(w0: World, w: World) {
    && !w.st.desired
    && if w.pc.Idle? then w.st.conn == Released(w0.st.conn)
       else
         && w.st.conn == w0.st.conn
         && (UplinkAhead(w.pc) || UplinkBehind(w.pc) || w.pc.Disconnecting?)
         && (w.pc.UplinkApplied? ==> w.pc.ok)
         && (w.pc.Decide? ==> !w.pc.desired && w.pc.conn == w.st.conn)
         && (w.pc.Disconnecting? ==> w.st.conn != ConnError)
  }

  lemma LetsGoStep(w0: World, w: World, e: Event)
    requires LetsGo(w0, w) && !w.pc.Idle? && Goes(e) && (e.Pass? ==> LoopPass.Succeeds(w, e.a))
    ensures LetsGo(w0, Step(w, e))
  {
    hide U.Apply, NeedsConnect, MayRetry, EffectiveProtocol, Spent, Backoff, U.AwaitedUdp, ConnectionSection;
  }

  lemma {:induction false} LetsGoRun(w0: World, w: World, es: seq<Event>)
    requires LetsGo(w0, w) && InPass(w, es) && CallsSucceed(w, es)
    ensures LetsGo(w0, Run(w, es))
    decreases |es|
  {
    hide Step, LetsGo, LoopPass.Succeeds;
    if es == [] {
    } else {
      LetsGoStep(w0, w, es[0]);
      LetsGoRun(w0, Step(w, es[0]), es[1..]);
    }
  }

  lemma {:induction false} ConnectCallSucceeds(w: World, es: seq<Event>)
    requires CallsConnect(w, es) && CallsSucceed(w, es)
    ensures var (at, a) := ConnectCall(w, es); at.pc.Connecting? && ReturnsNil(at, a)
    decreases |es|
  {
    hide Step, U.Apply;
    if w.pc.Connecting? && es[0].Pass? {
    } else {
      ConnectCallSucceeds(Step(w, es[0]), es[1..]);
    }
  }

  /** What a whole pass whose calls all succeed ends with. Not wanted: disconnected, or the error shown before. Wanted, with
      an attempt due, or a reconnect asked for, or an applied uplink replaced, and no `connecting` shown that nobody is
      doing: connected, and in a new session for the configured location and protocol whenever that was warranted. */
  lemma PassAchieves(w: World, es: seq<Event>)
    requires WholePass(w, es) && CallsSucceed(w, es)
    ensures var end := Run(w, es);
            && (!w.st.desired ==> end.st.conn == Released(w.st.conn))
            && (Warranted(w, w.now) ==>
                  && end.st.conn == ConnConnected && end.sessions > w.sessions && end.st.lastError == None
                  && end.mem.conn == Some(ConnSpec(w.cfg.expressvpn.location, w.cfg.expressvpn.protocol)))
            && (w.st.desired && w.st.conn == ConnConnected && w.mem.uplink == Some(w.cfg.uplink) ==> end.st.conn == ConnConnected)
            && (w.st.desired && w.st.conn != ConnConnecting && Due(w.mem, w.now) ==> end.st.conn == ConnConnected)
  {
    hide Section, Run, U.Apply, CallsSucceed, LayersSucceed, Step, LoopPass.Succeeds, InPass, OnTheWay, EndsFailed;
    var w1 := w.(pc := ReadDesired(w.cfg));
    Begins(w, es);
    SuccessIncludesLayers(w, es);
    if Warranted(w, w.now) {
      WarrantedPassConnects(w, es);
      ConnectCallSucceeds(w, es);
      OnTheWayMeans(w, ConnectCall(w, es).0);
    }
    if w.st.desired && w.st.conn == ConnConnected && w.mem.uplink == Some(w.cfg.uplink) {
      RestSucceeds(w, es);
      KeepsConnectedRun(w1, es[1..]);
    }
    if !w.st.desired {
      RestSucceeds(w, es);
      LetsGoRun(w, w1, es[1..]);
    }
  }

  lemma RestSucceeds(w: World, es: seq<Event>)
    requires WholePass(w, es) && CallsSucceed(w, es)
    ensures InPass(w.(pc := ReadDesired(w.cfg)), es[1..]) && CallsSucceed(w.(pc := ReadDesired(w.cfg)), es[1..])
  {
    Begins(w, es);
  }

  lemma OnTheWayMeans(w0: World, w: World)
    requires OnTheWay(w0, w) && w.pc.Connecting?
    ensures w.cfg == w0.cfg && w.pc.sessionsBefore >= w0.sessions
  {
  }

  /** In every run: once the time after the k-th failure, k < 10, exceeds min(2^(k-1), 60) s, the next whole pass calls the
      driver's connect, as long as a connection is wanted and shown as neither up nor coming up, and the kill switch and the
      uplink do not fail. */
  lemma RetryIsMade(cfg: Config, o: U.Original, before: seq<Event>, es: seq<Event>)
    requires var w := Run(Start(cfg, o), before);
             && WholePass(w, es) && LayersSucceed(w, es)
             && w.st.desired && w.st.conn != ConnConnected && w.st.conn != ConnConnecting && w.mem.failures < 10
    ensures var w := Run(Start(cfg, o), before);
            && |w.h.failTimes| == w.mem.failures
            && ((w.mem.failures > 0 ==> w.now > w.h.failTimes[w.mem.failures - 1] + LoopSafety.RetryDelay(w.mem.failures))
                ==> CallsConnect(w, es))
  {
    hide Section, LayersSucceed, WholePass, CallsConnect, OnTheWay, LoopSafety.AttemptsInv;
    LoopSafety.RetryRun(Start(cfg, o), before) by { StartIsFresh(cfg, o); }
    var w := Run(Start(cfg, o), before);
    if w.mem.failures > 0 { LoopSafety.BackoffIs(w.mem.failures); }
    if Warranted(w, w.now) { WarrantedPassConnects(w, es); }
  }

  lemma StartIsFresh(cfg: Config, o: U.Original)
    ensures LoopSafety.RetryInv(Start(cfg, o))
  {
  }

  /** What makes the next due pass connect anew: a poll that sees the connection gone, a crash of the daemon, another
      location or protocol, and, due or not, a reconnect that is asked for. */
  lemma WhatWarrants(w: World, polled: Connection, c: Config)
    requires w.st.desired && w.st.conn == ConnConnected
    ensures polled != ConnConnected && Due(w.mem, w.now) ==> Warranted(Step(w, Supervise(polled)), w.now)
    ensures polled == ConnConnected ==> Step(w, Supervise(polled)) == w
    ensures Due(w.mem, w.now) ==> Warranted(Step(w, DaemonCrash), w.now)
    ensures Valid(c) && Due(w.mem, w.now) && w.mem.conn == Some(ConnSpec(w.cfg.expressvpn.location, w.cfg.expressvpn.protocol))
            && (c.expressvpn.location, c.expressvpn.protocol) != (w.cfg.expressvpn.location, w.cfg.expressvpn.protocol) ==>
              Warranted(Step(w, SetConfig(c)), w.now)
    ensures Valid(c) && c.uplink != w.cfg.uplink && w.mem.uplink == Some(w.cfg.uplink) ==> Warranted(Step(w, SetConfig(c)), w.now)
    ensures Warranted(Step(w, ForceReconnect), w.now)
    ensures Due(Step(w, ResetRetries).mem, w.now)
  {
    hide Validate, Section, U.Step;
  }

  // ---------- what a failing kill switch or uplink leaves ----------

  ghost predicate KillswitchFails(w: World, es: seq<Event>)
    decreases |es|
  {
    es != [] &&
    ((w.pc.StageKillswitch? && w.mem.ks != Some(w.pc.c.uplink) && es[0].Pass? && !es[0].a.ok)
     || KillswitchFails(Step(w, es[0]), es[1..]))
  }

  /** Without the kill switch a pass goes no further: nothing but the error and the inactive kill switch is left of it. */
  lemma KillswitchFailureStopsPass(w: World, es: seq<Event>)
    requires WholePass(w, es) && KillswitchFails(w, es)
    ensures var end := Run(w, es);
            && end.st == w.st.(ksActive := false, lastError := Some("killswitch_failed"))
            && end.mem == w.mem && end.driver == w.driver
  {
    Begins(w, es);
    KillswitchFailureRun(w, w.(pc := ReadDesired(w.cfg)), es[1..]);
  }

  lemma {:induction false} KillswitchFailureRun(w0: World, w: World, es: seq<Event>)
    requires InPass(w, es) && KillswitchFails(w, es) && (w.pc.ReadDesired? || w.pc.StageKillswitch?)
    requires w.st == w0.st && w.mem == w0.mem && w.driver == w0.driver
    ensures var end := Run(w, es);
            && end.st == w0.st.(ksActive := false, lastError := Some("killswitch_failed"))
            && end.mem == w0.mem && end.driver == w0.driver
    decreases |es|
  {
    hide U.Apply, DecisionSection, ConnectionSection;
    var w', rest := Step(w, es[0]), es[1..];
    if w'.pc.Idle? {
      assert rest == [] && Run(w', rest) == w';
    } else if w'.pc.StageUplink? {
      PastKillswitch(w', rest);
    } else {
      KillswitchFailureRun(w0, w', rest);
    }
  }

  lemma {:induction false} PastKillswitch(w: World, es: seq<Event>)
    requires InPass(w, es) && !w.pc.ReadDesired? && !w.pc.StageKillswitch?
    ensures !KillswitchFails(w, es)
    decreases |es|
  {
    hide U.Apply;
    if es == [] {
    } else {
      var w' := Step(w, es[0]);
      NeverBack(w, es[0]);
      if w'.pc.Idle? {
        assert es[1..] == [];
      } else {
        PastKillswitch(w', es[1..]);
      }
    }
  }

  lemma NeverBack(w: World, e: Event)
    requires !w.pc.Idle? && !w.pc.ReadDesired? && !w.pc.StageKillswitch? && Goes(e)
    ensures !Step(w, e).pc.ReadDesired? && !Step(w, e).pc.StageKillswitch?
  {
    hide U.Apply, NeedsConnect, MayRetry, EffectiveProtocol, Spent, Backoff, U.AwaitedUdp;
  }

  ghost predicate UplinkFails(w: World, es: seq<Event>)
    decreases |es|
  {
    es != [] &&
    ((w.pc.ApplyingUplink? && es[0].Pass? && !U.Apply(w.driver, w.st.uplink.udp, w.pc.c.uplink, es[0].a.uplink).ok)
     || UplinkFails(Step(w, es[0]), es[1..]))
  }

  predicate BeforeUplink(w: World) {
    UplinkAhead(w.pc) || w.pc.ApplyingUplink? || (w.pc.UplinkApplied? && !w.pc.ok)
  }

  /** Without its uplink a pass shows the error, remembers no uplink and does not connect. */
  lemma UplinkFailureStopsPass(w: World, es: seq<Event>)
    requires WholePass(w, es) && UplinkFails(w, es)
    ensures var end := Run(w, es);
            end.st.lastError == Some("uplink_failed") && end.mem.uplink == w.mem.uplink && end.mem.conn == w.mem.conn
    ensures !CallsConnect(w, es)
  {
    Begins(w, es);
    UplinkFailureRun(w, w.(pc := ReadDesired(w.cfg)), es[1..]);
  }

  lemma {:induction false} UplinkFailureRun(w0: World, w: World, es: seq<Event>)
    requires InPass(w, es) && BeforeUplink(w) && (UplinkFails(w, es) || w.pc.UplinkApplied?) && Run(w, es).pc.Idle?
    requires w.mem.uplink == w0.mem.uplink && w.mem.conn == w0.mem.conn
    ensures var end := Run(w, es);
            end.st.lastError == Some("uplink_failed") && end.mem.uplink == w0.mem.uplink && end.mem.conn == w0.mem.conn
    ensures !CallsConnect(w, es)
    decreases |es|
  {
    hide U.Apply, DecisionSection, ConnectionSection;
    if es == [] {
      assert false;
    } else {
      var w', rest := Step(w, es[0]), es[1..];
      if w'.pc.Idle? {
        assert rest == [] && Run(w', rest) == w';
      } else if BeforeUplink(w') {
        UplinkFailureRun(w0, w', rest);
      } else {
        PastUplink(w', rest);
      }
    }
  }

  lemma {:induction false} PastUplink(w: World, es: seq<Event>)
    requires InPass(w, es) && !UplinkAhead(w.pc) && !w.pc.ApplyingUplink?
    ensures !UplinkFails(w, es)
    decreases |es|
  {
    hide Step;
    if es == [] {
    } else {
      NeverBackToUplink(w, es[0]);
      if Step(w, es[0]).pc.Idle? {
        assert es[1..] == [];
      } else {
        PastUplink(Step(w, es[0]), es[1..]);
      }
    }
  }

  lemma NeverBackToUplink(w: World, e: Event)
    requires !w.pc.Idle? && !UplinkAhead(w.pc) && !w.pc.ApplyingUplink? && Goes(e)
    ensures !UplinkAhead(Step(w, e).pc) && !Step(w, e).pc.ApplyingUplink?
  {
    hide NeedsConnect, MayRetry, EffectiveProtocol, Spent, Backoff, U.AwaitedUdp;
  }
}
