/** What every run of the control loop keeps: the kill switch comes first, and attempts are bounded and paced. */
module LoopSafety {
  import opened Wrappers
  import opened Config
  import opened Daemon
  import opened AgentState
  import opened ControlLoop
  import U = UplinkDriver

  // ---------- the kill switch comes first ----------

  predicate PastKillswitch(pc: Pc) {
    !pc.Idle? && !pc.ReadDesired? && !pc.StageKillswitch?
  }

  ghost predicate KillswitchInv(w: World) {
    && w.mem.ks == w.h.ksOk
    && (w.st.ksActive ==> w.mem.ks.Some?)
    && (PastKillswitch(w.pc) ==> w.mem.ks == Some(w.pc.c.uplink))
  }

  lemma KillswitchLayers(w: World, a: Answer)
    requires KillswitchInv(w) && InLayers(w.pc)
    ensures KillswitchInv(LayerSection(w, a))
  {
    hide U.Apply;
  }

  lemma KillswitchDecision(w: World, a: Answer)
    requires KillswitchInv(w) && InDecision(w.pc)
    ensures KillswitchInv(DecisionSection(w, a))
  {
    hide NeedsConnect, MayRetry;
  }

  lemma KillswitchConnection(w: World, a: Answer)
    requires KillswitchInv(w) && !InLayers(w.pc) && !InDecision(w.pc)
    ensures KillswitchInv(ConnectionSection(w, a))
  {
    hide EffectiveProtocol, Spent, Backoff, U.AwaitedUdp;
  }

  lemma KillswitchStep(w: World, e: Event)
    requires KillswitchInv(w)
    ensures KillswitchInv(Step(w, e))
  {
    hide U.Step, Validate, LayerSection, DecisionSection, ConnectionSection;
    if e.Pass? {
      if InLayers(w.pc) { KillswitchLayers(w, e.a); }
      else if InDecision(w.pc) { KillswitchDecision(w, e.a); }
      else { KillswitchConnection(w, e.a); }
    }
  }

  lemma {:induction false} KillswitchRun(w: World, es: seq<Event>)
    requires KillswitchInv(w)
    ensures KillswitchInv(Run(w, es))
    decreases |es|
  {
    if es == [] {
    } else {
      KillswitchStep(w, es[0]);
      KillswitchRun(Step(w, es[0]), es[1..]);
    }
  }

  /** In every run, while a pass that read `c` is in the uplink's Apply or in the driver's Connect, the most recent successful
      kill switch Apply had argument `c.uplink`. */
  lemma KillswitchComesFirst(cfg: Config, o: U.Original, es: seq<Event>)
    ensures var w := Run(Start(cfg, o), es);
            w.pc.ApplyingUplink? || w.pc.Connecting? ==> w.h.ksOk == Some(w.pc.c.uplink)
  {
    KillswitchRun(Start(cfg, o), es);
  }

  /** A pass that ends leaves Active only over rules for the configuration it read ... */
  lemma ActiveMeansApplied(cfg: Config, o: U.Original, es: seq<Event>, a: Answer)
    ensures var w := Run(Start(cfg, o), es);
            var w' := Section(w, a);
            !w.pc.Idle? && w'.pc.Idle? && w'.st.ksActive ==> w'.mem.ks == Some(w.pc.c.uplink)
  {
    KillswitchRun(Start(cfg, o), es);
  }

  /** Whether `e` is a call of the kill switch driver. */
  predicate CallsKillswitch(w: World, e: Event) {
    e.Pass? && w.pc.StageKillswitch? && w.mem.ks != Some(w.pc.c.uplink)
  }

  /** The answer to the latest call of the kill switch driver in a run, `was` before it. */
  function LastOutcome(w: World, es: seq<Event>, was: bool): bool
    decreases |es|
  {
    if es == [] then was
    else LastOutcome(Step(w, es[0]), es[1..], if CallsKillswitch(w, es[0]) then es[0].a.ok else was)
  }

  lemma ActiveStep(w: World, e: Event)
    ensures Step(w, e).st.ksActive == if CallsKillswitch(w, e) then e.a.ok else w.st.ksActive
  {
    hide U.Apply, U.Step, Validate, NeedsConnect, MayRetry, EffectiveProtocol, Spent, Backoff, U.AwaitedUdp;
  }

  lemma {:induction false} ActiveRun(w: World, es: seq<Event>)
    ensures Run(w, es).st.ksActive == LastOutcome(w, es, w.st.ksActive)
    decreases |es|
  {
    hide Step;
    if es == [] {
    } else {
      ActiveStep(w, es[0]);
      ActiveRun(Step(w, es[0]), es[1..]);
    }
  }

  /** ... and past the kill switch, where the rules in place are those of the configuration, Active is shown exactly when the
      driver's latest call succeeded: not after a failed call for another configuration that was put back. */
  lemma ActiveIsLastOutcome(cfg: Config, o: U.Original, es: seq<Event>)
    ensures var w := Run(Start(cfg, o), es);
            && (w.st.ksActive <==> LastOutcome(Start(cfg, o), es, false))
            && (PastKillswitch(w.pc) ==> w.h.ksOk == Some(w.pc.c.uplink))
  {
    KillswitchRun(Start(cfg, o), es);
    ActiveRun(Start(cfg, o), es);
  }

  // ---------- attempts are bounded and paced ----------

  predicate Deciding(pc: Pc) {
    pc.MarkConnecting? || pc.ReadUdp? || pc.AwaitUdp? || pc.PublishUdp? || pc.ChooseProtocol?
  }

  function Pow2(n: nat): nat {
    if n == 0 then 1 else 2 * Pow2(n - 1)
  }

  /** min(2^(k-1), 60) seconds, in milliseconds. */
  function RetryDelay(k: nat): nat
    requires k >= 1
  {
    1000 * if Pow2(k - 1) < 60 then Pow2(k - 1) else 60
  }

  lemma {:induction false} Pow2Grows(n: nat)
    requires n >= 6
    ensures Pow2(n) >= 64
  {
    if n == 6 {
      assert Pow2(6) == 4 * Pow2(4) == 16 * Pow2(2) == 64;
    } else {
      Pow2Grows(n - 1);
    }
  }

  /** The delays of the table are the powers of two up to a minute. */
  lemma BackoffIs(k: nat)
    requires k >= 1
    ensures Backoff(k) == RetryDelay(k)
  {
    if k >= 7 {
      Pow2Grows(k - 1);
    } else {
      assert Pow2(2) == 4 && Pow2(4) == 4 * Pow2(2) && Pow2(5) == 2 * Pow2(4);
    }
  }

  function Offset(h: History): nat {
    if h.crossing then 1 else 0
  }

  /** The earliest instant, exclusive, at which an unforced attempt may follow the failures so far. */
  ghost predicate Due(h: History, k: nat, at: int) {
    k < MAX_FAILURES && (0 < k <= |h.failTimes| ==> at > h.failTimes[k - 1] + Backoff(k))
  }

  ghost predicate AttemptsInv(h: History, now: nat) {
    && (forall i | 0 <= i < |h.attempts| :: h.attempts[i].after == i + Offset(h) && h.attempts[i].after <= |h.failTimes|
          && h.attempts[i].at <= now)
    && (forall i | 0 <= i < |h.attempts| && !h.attempts[i].forced :: Due(h, h.attempts[i].after, h.attempts[i].at))
    && (forall i | 0 <= i < |h.attempts| && h.attempts[i].after < |h.failTimes| :: h.attempts[i].at <= h.failTimes[h.attempts[i].after])
    && (forall i | 0 <= i < |h.failTimes| :: h.failTimes[i] <= now)
  }

  ghost predicate RetryInv(w: World) {
    && |w.h.failTimes| == w.mem.failures
    && |w.h.attempts| + Offset(w.h) == w.mem.failures + (if w.pc.Connecting? then 1 else 0)
    && (0 < w.mem.failures < MAX_FAILURES ==> w.mem.nextRetryAt == w.h.failTimes[w.mem.failures - 1] + Backoff(w.mem.failures))
    && (w.mem.failures == 0 ==> w.mem.nextRetryAt == ZERO_TIME)
    && AttemptsInv(w.h, w.now)
    && (Deciding(w.pc) && !w.pc.forced ==> Due(w.h, w.mem.failures, w.now))
  }

  lemma RetryStep(w: World, e: Event)
    requires RetryInv(w)
    ensures RetryInv(Step(w, e))
  {
    hide U.Step, Validate, LayerSection, DecisionSection, ConnectionSection;
    if e.Pass? {
      if InLayers(w.pc) { RetryLayers(w, e.a); }
      else if InDecision(w.pc) { RetryDecision(w, e.a); }
      else { RetryConnection(w, e.a); }
    }
  }

  lemma RetryLayers(w: World, a: Answer)
    requires RetryInv(w) && InLayers(w.pc)
    ensures RetryInv(LayerSection(w, a))
  {
    hide U.Apply, Backoff, AttemptsInv, Due;
    SameAttempts(w.h, LayerSection(w, a).h, w.now);
  }

  lemma RetryDecision(w: World, a: Answer)
    requires RetryInv(w) && InDecision(w.pc)
    ensures RetryInv(DecisionSection(w, a))
  {
    hide NeedsConnect, Backoff, AttemptsInv;
    SameAttempts(w.h, DecisionSection(w, a).h, w.now);
  }

  lemma RetryConnection(w: World, a: Answer)
    requires RetryInv(w) && !InLayers(w.pc) && !InDecision(w.pc)
    ensures RetryInv(ConnectionSection(w, a))
  {
    hide EffectiveProtocol, U.AwaitedUdp, Backoff, AttemptsInv, Due;
    if w.pc.Connecting? { RetryConnect(w, a); }
    else if w.pc.ChooseProtocol? { RetryBegin(w); }
    else { SameAttempts(w.h, ConnectionSection(w, a).h, w.now); }
  }

  lemma SameAttempts(h: History, h': History, now: nat)
    requires AttemptsInv(h, now) && h'.attempts == h.attempts && h'.failTimes == h.failTimes && h'.crossing == h.crossing
    ensures AttemptsInv(h', now)
  {
  }

  lemma RetryBegin(w: World)
    requires RetryInv(w) && w.pc.ChooseProtocol?
    ensures RetryInv(ProtocolSection(w))
  {
    var w' := ProtocolSection(w);
    assert w'.h.attempts == w.h.attempts + [Attempt(w.now, w.pc.forced, w.mem.failures, 0)];
    assert w'.h.failTimes == w.h.failTimes && w'.mem == w.mem && w'.h.crossing == w.h.crossing;
  }

  lemma RetryConnect(w: World, a: Answer)
    requires RetryInv(w) && w.pc.Connecting?
    ensures RetryInv(ConnectSection(w, a))
  {
    hide Backoff;
    var w' := ConnectSection(w, a);
    if w'.pc.AfterFailure? {
      assert w'.h.failTimes == w.h.failTimes + [w.now] && w'.h.attempts == Spent(w.h.attempts, a.cli);
      forall i | 0 <= i < |w.h.attempts| ensures w'.h.attempts[i] == w.h.attempts[i].(cli := w'.h.attempts[i].cli) {}
    }
  }

  lemma {:induction false} RetryRun(w: World, es: seq<Event>)
    requires RetryInv(w)
    ensures RetryInv(Run(w, es))
    decreases |es|
  {
    if es == [] {
    } else {
      RetryStep(w, es[0]);
      RetryRun(Step(w, es[0]), es[1..]);
    }
  }

  ghost predicate CliInv(attempts: seq<Attempt>) {
    forall i | 0 <= i < |attempts| :: attempts[i].cli <= CONNECTS_PER_CALL
  }

  lemma CliStep(w: World, e: Event)
    requires CliInv(w.h.attempts) && KeepsContract(e)
    ensures CliInv(Step(w, e).h.attempts)
  {
    hide U.Step, Validate, LayerSection, DecisionSection, ConnectionSection, CliInv;
    if e.Pass? {
      if InLayers(w.pc) { LayersKeepAttempts(w, e.a); }
      else if InDecision(w.pc) { DecisionKeepsAttempts(w, e.a); }
      else { CliConnection(w, e.a); }
    } else if e.ResetRetries? {
      assert CliInv([]) by { NoAttempts(); }
    }
  }

  lemma NoAttempts()
    ensures CliInv([])
  {
  }

  lemma LayersKeepAttempts(w: World, a: Answer)
    requires InLayers(w.pc)
    ensures LayerSection(w, a).h.attempts == w.h.attempts
  {
    hide U.Apply;
  }

  lemma DecisionKeepsAttempts(w: World, a: Answer)
    requires InDecision(w.pc)
    ensures DecisionSection(w, a).h.attempts == w.h.attempts
  {
    hide NeedsConnect, MayRetry;
  }

  lemma CliConnection(w: World, a: Answer)
    requires CliInv(w.h.attempts) && a.cli <= CONNECTS_PER_CALL && !InLayers(w.pc) && !InDecision(w.pc)
    ensures CliInv(ConnectionSection(w, a).h.attempts)
  {
    hide EffectiveProtocol, U.AwaitedUdp, Backoff;
  }

  lemma {:induction false} CliRun(w: World, es: seq<Event>)
    requires CliInv(w.h.attempts) && forall e | e in es :: KeepsContract(e)
    ensures CliInv(Run(w, es).h.attempts)
    decreases |es|
  {
    hide Step, KeepsContract, CliInv;
    if es == [] {
    } else {
      CliStep(w, es[0]);
      CliRun(Step(w, es[0]), es[1..]);
    }
  }

  function Unforced(attempts: seq<Attempt>): nat {
    if attempts == [] then 0 else Unforced(attempts[1..]) + if attempts[0].forced then 0 else 1
  }

  function UnforcedCli(attempts: seq<Attempt>): nat {
    if attempts == [] then 0 else UnforcedCli(attempts[1..]) + if attempts[0].forced then 0 else attempts[0].cli
  }

  lemma {:induction false} UnforcedBound(attempts: seq<Attempt>, room: nat)
    requires forall i | 0 <= i < |attempts| && !attempts[i].forced :: i < room
    ensures Unforced(attempts) <= room
    ensures CliInv(attempts) ==> UnforcedCli(attempts) <= CONNECTS_PER_CALL * Unforced(attempts)
  {
    if attempts == [] {
    } else {
      assert forall i | 0 <= i < |attempts[1..]| :: attempts[1..][i] == attempts[i + 1];
      if room > 0 { UnforcedBound(attempts[1..], room - 1); } else { UnforcedBound(attempts[1..], 0); }
    }
  }

  /** Between resets at most ten unforced driver connects start, hence at most thirty unforced CLI `connect`s; after the
      k-th failure an unforced one starts only if k < 10, and strictly more than min(2^(k-1), 60) seconds later. */
  lemma AttemptsAreBoundedAndPaced(cfg: Config, o: U.Original, es: seq<Event>)
    ensures var h := Run(Start(cfg, o), es).h;
            && Unforced(h.attempts) <= MAX_FAILURES
            && ((forall e | e in es :: KeepsContract(e)) ==> UnforcedCli(h.attempts) <= 30)
            && forall i | 0 <= i < |h.attempts| && !h.attempts[i].forced ::
                 var k := h.attempts[i].after;
                 k < MAX_FAILURES && k <= |h.failTimes| && (k >= 1 ==> h.attempts[i].at > h.failTimes[k - 1] + RetryDelay(k))
  {
    hide RetryDelay, Backoff;
    RetryRun(Start(cfg, o), es);
    forall k: nat | k >= 1 ensures Backoff(k) == RetryDelay(k) {
      BackoffIs(k);
    }
    var h := Run(Start(cfg, o), es).h;
    UnforcedBound(h.attempts, MAX_FAILURES - Offset(h));
    if forall e | e in es :: KeepsContract(e) {
      CliRun(Start(cfg, o), es);
    }
  }

  function TotalBackoff(k: nat): nat {
    if k == 0 then 0 else TotalBackoff(k - 1) + Backoff(k)
  }

  lemma {:induction false} UnforcedSpread(h: History, now: nat, k: nat)
    requires AttemptsInv(h, now) && (forall a | a in h.attempts :: !a.forced)
    requires 0 < k < |h.failTimes| && k - Offset(h) < |h.attempts|
    ensures h.failTimes[k] > h.failTimes[0] + TotalBackoff(k)
  {
    var i := k - Offset(h);
    assert h.attempts[i].after == k && !h.attempts[i].forced && Due(h, k, h.attempts[i].at);
    if k == 1 {
    } else {
      UnforcedSpread(h, now, k - 1);
    }
  }

  /** When no attempt is forced, the tenth starts more than 243 s after the first failure, and it is the last. */
  lemma TenthAttemptIsLate(cfg: Config, o: U.Original, es: seq<Event>, i: nat)
    ensures var h := Run(Start(cfg, o), es).h;
            (forall a | a in h.attempts :: !a.forced) && i < |h.attempts| ==>
              && h.attempts[i].after <= 9 && h.attempts[i].after <= |h.failTimes|
              && (h.attempts[i].after == 9 ==> h.attempts[i].at > h.failTimes[0] + 243_000)
  {
    RetryRun(Start(cfg, o), es);
    var w := Run(Start(cfg, o), es);
    if (forall a | a in w.h.attempts :: !a.forced) && i < |w.h.attempts| {
      assert !w.h.attempts[i].forced && Due(w.h, w.h.attempts[i].after, w.h.attempts[i].at);
      if w.h.attempts[i].after == 9 {
        UnforcedSpread(w.h, w.now, 8);
        assert TotalBackoff(4) == 15_000 && TotalBackoff(6) == 63_000 && TotalBackoff(8) == 183_000;
      }
    }
  }
}
