/** The administrator's password: the login throttle over timed attempts, and the two marker files under crashes. */
module Sessions {
  import opened Wrappers

  const THROTTLE_AFTER := 5
  /** Milliseconds. */
  const THROTTLE_FOR := 30_000

  // ---------- the throttle ----------

  datatype Throttle = Throttle(failures: nat, blockedTo: int)

  datatype Verdict = Accepted | Wrong | Throttled

  /** One VerifyPassword: throttling is checked at `at`, the outcome recorded at `done`. */
  function Verify(t: Throttle, at: int, done: int, correct: bool): (Verdict, Throttle) {
    if at < t.blockedTo then (Throttled, t)
    else if correct then (Accepted, t.(failures := 0))
    else (Wrong, RecordWrong(t, done))
  }

  function RecordWrong(t: Throttle, done: int): Throttle {
    if t.failures + 1 >= THROTTLE_AFTER then Throttle(0, done + THROTTLE_FOR) else t.(failures := t.failures + 1)
  }

  /** The fifth wrong password in a row throttles every attempt of the next 30 seconds and none after; a correct one, when
      not throttled, is accepted and starts the count again. */
  lemma FifthFailureBlocks(t: Throttle, done: int, at: int, later: int, correct: bool)
    ensures t.failures == 4 ==>
              (Verify(RecordWrong(t, done), at, later, correct).0 == Throttled <==> at < done + 30_000)
    ensures t.failures < 4 ==> RecordWrong(t, done) == Throttle(t.failures + 1, t.blockedTo)
    ensures at >= t.blockedTo ==> Verify(t, at, later, true) == (Accepted, Throttle(0, t.blockedTo))
    ensures at >= t.blockedTo ==> Verify(t, at, later, false).0 == Wrong
    ensures at < t.blockedTo ==> Verify(t, at, later, correct) == (Throttled, t)
  {
  }

  /** A caller holds the mutex twice: to check for the block, and to record that the password was wrong. It leaves after
      the first time when it cannot read the password file. */
  datatype Step = Check(at: int) | Record(at: int) | Leave(at: int)

  /** The throttle and the number of callers between their two steps. */
  datatype Gate = Gate(t: Throttle, inFlight: nat)

  function Take(g: Gate, s: Step): Gate {
    match s
    case Check(at) => if at < g.t.blockedTo then g else g.(inFlight := g.inFlight + 1)
    case Record(at) => if g.inFlight == 0 then g else Gate(RecordWrong(g.t, at), g.inFlight - 1)
    case Leave(_) => if g.inFlight == 0 then g else g.(inFlight := g.inFlight - 1)
  }

  /** One VerifyPassword with a wrong password is the two steps with nobody between. */
  lemma VerifyIsCheckThenRecord(t: Throttle, at: int, done: int)
    ensures Take(Take(Gate(t, 0), Check(at)), Record(done)) == Gate(Verify(t, at, done, false).1, 0)
  {
  }

  ghost predicate InOrder(steps: seq<Step>) {
    forall i, j | 0 <= i < j < |steps| :: steps[i].at <= steps[j].at
  }

  /** At no time are more than `m` callers between their two steps. */
  ghost predicate Crowd(g: Gate, steps: seq<Step>, m: nat)
    decreases |steps|
  {
    g.inFlight <= m && (steps != [] ==> Crowd(Take(g, steps[0]), steps[1..], m))
  }

  predicate Within(x: int, from: int, to: int) {
    from <= x < to
  }

  /** How many wrong attempts are evaluated, rather than throttled, and recorded in [from, to). */
  function Evaluated(g: Gate, steps: seq<Step>, from: int, to: int): nat
    decreases |steps|
  {
    if steps == [] then 0
    else
      (if steps[0].Record? && g.inFlight > 0 && Within(steps[0].at, from, to) then 1 else 0)
      + Evaluated(Take(g, steps[0]), steps[1..], from, to)
  }

  lemma OrderedTail(steps: seq<Step>)
    requires InOrder(steps) && steps != []
    ensures InOrder(steps[1..]) && forall s | s in steps[1..] :: steps[0].at <= s.at
  {
  }

  lemma {:induction false} NoneAfterTheWindow(g: Gate, steps: seq<Step>, from: int, to: int)
    requires forall s | s in steps :: s.at >= to
    ensures Evaluated(g, steps, from, to) == 0
    decreases |steps|
  {
    if steps == [] {
    } else {
      NoneAfterTheWindow(Take(g, steps[0]), steps[1..], from, to);
    }
  }

  /** While blocked to the end of the window, only the callers in flight still record. */
  lemma {:induction false} OnlyThoseInFlight(g: Gate, steps: seq<Step>, from: int, to: int)
    requires InOrder(steps) && to <= from + THROTTLE_FOR && to <= g.t.blockedTo
    requires forall s | s in steps :: s.at >= from
    ensures Evaluated(g, steps, from, to) <= g.inFlight
    decreases |steps|
  {
    if steps == [] {
    } else {
      OrderedTail(steps);
      assert steps[0] in steps;
      if steps[0].at >= to {
        NoneAfterTheWindow(g, steps, from, to);
      } else {
        OnlyThoseInFlight(Take(g, steps[0]), steps[1..], from, to);
      }
    }
  }

  /** Inside the window: the failures that are missing to the block, then the rest of the crowd. */
  lemma {:induction false} FailuresThenCrowd(g: Gate, steps: seq<Step>, from: int, m: nat)
    requires InOrder(steps) && m >= 1 && Crowd(g, steps, m) && g.t.failures < THROTTLE_AFTER
    requires forall s | s in steps :: s.at >= from
    ensures Evaluated(g, steps, from, from + THROTTLE_FOR) <= THROTTLE_AFTER - g.t.failures + m - 1
    decreases |steps|
  {
    var to := from + THROTTLE_FOR;
    if steps == [] {
    } else {
      OrderedTail(steps);
      assert steps[0] in steps;
      var g' := Take(g, steps[0]);
      if steps[0].at >= to {
        NoneAfterTheWindow(g, steps, from, to);
      } else if g'.t.blockedTo != g.t.blockedTo {
        OnlyThoseInFlight(g', steps[1..], from, to);
      } else if g'.t.failures >= g.t.failures {
        FailuresThenCrowd(g', steps[1..], from, m);
      } else {
        OnlyThoseInFlight(g', steps[1..], from, to);
      }
    }
  }

  /** In any run of wrong attempts with at most `m` callers between check and record, any half-open 30 s window holds at
      most `m + 4` that were evaluated. */
  lemma {:induction false} WindowIsBounded(g: Gate, steps: seq<Step>, from: int, m: nat)
    requires InOrder(steps) && m >= 1 && Crowd(g, steps, m) && g.t.failures < THROTTLE_AFTER
    ensures Evaluated(g, steps, from, from + THROTTLE_FOR) <= m + THROTTLE_AFTER - 1
    decreases |steps|
  {
    if steps == [] {
    } else {
      OrderedTail(steps);
      if steps[0].at >= from {
        FailuresThenCrowd(g, steps, from, m);
      } else {
        WindowIsBounded(Take(g, steps[0]), steps[1..], from, m);
      }
    }
  }

  /** Callers that take turns: at most five. */
  lemma WindowHoldsAtMostFive(g: Gate, steps: seq<Step>, from: int)
    requires InOrder(steps) && Crowd(g, steps, 1) && g.t.failures < THROTTLE_AFTER
    ensures Evaluated(g, steps, from, from + THROTTLE_FOR) <= THROTTLE_AFTER
  {
    WindowIsBounded(g, steps, from, 1);
  }

  lemma {:induction false} EvaluatedSplits(g: Gate, steps: seq<Step>, from: int, mid: int, to: int)
    requires from <= mid <= to
    ensures Evaluated(g, steps, from, to) == Evaluated(g, steps, from, mid) + Evaluated(g, steps, mid, to)
    decreases |steps|
  {
    if steps == [] {
    } else {
      EvaluatedSplits(Take(g, steps[0]), steps[1..], from, mid, to);
    }
  }

  /** D / 30 s + 1. */
  function Windows(duration: nat): nat {
    duration / THROTTLE_FOR + 1
  }

  lemma OneWindowMore(duration: nat, each: nat)
    requires duration >= THROTTLE_FOR
    ensures Windows(duration) * each == Windows(duration - THROTTLE_FOR) * each + each
  {
    var before := Windows(duration - THROTTLE_FOR);
    assert Windows(duration) == before + 1;
    assert (before + 1) * each == before * each + each;
  }

  /** So in any duration D at most (m + 4) * (D / 30 s + 1) wrong attempts are evaluated. */
  lemma {:induction false} RateIsBounded(g: Gate, steps: seq<Step>, from: int, duration: nat, m: nat)
    requires InOrder(steps) && m >= 1 && Crowd(g, steps, m) && g.t.failures < THROTTLE_AFTER
    ensures Evaluated(g, steps, from, from + duration) <= Windows(duration) * (m + THROTTLE_AFTER - 1)
    decreases duration
  {
    hide Evaluated, InOrder, Crowd;
    var end := from + duration;
    WindowIsBounded(g, steps, from, m);
    if duration < THROTTLE_FOR {
      assert Windows(duration) == 1;
      EvaluatedSplits(g, steps, from, end, from + THROTTLE_FOR);
    } else {
      RateIsBounded(g, steps, from + THROTTLE_FOR, duration - THROTTLE_FOR, m);
      OneWindowMore(duration, m + THROTTLE_AFTER - 1);
      EvaluatedSplits(g, steps, from, from + THROTTLE_FOR, end);
    }
  }

  /** `checks` callers check and `records` record, all at one instant. */
  function Surge(checks: nat, records: nat, now: int): (steps: seq<Step>)
    ensures forall s | s in steps :: s.at == now
  {
    if checks > 0 then [Check(now)] + Surge(checks - 1, records, now)
    else if records > 0 then [Record(now)] + Surge(0, records - 1, now)
    else []
  }

  lemma {:induction false} SurgeIsEvaluated(g: Gate, checks: nat, records: nat, now: int)
    requires records <= g.inFlight + checks && (checks > 0 ==> g.t.blockedTo <= now)
    ensures var steps := Surge(checks, records, now);
            Evaluated(g, steps, now, now + THROTTLE_FOR) == records && Crowd(g, steps, g.inFlight + checks)
    decreases checks, records
  {
    var steps := Surge(checks, records, now);
    if checks > 0 {
      assert steps[1..] == Surge(checks - 1, records, now);
      SurgeIsEvaluated(Take(g, Check(now)), checks - 1, records, now);
    } else if records > 0 {
      assert steps[1..] == Surge(0, records - 1, now);
      SurgeIsEvaluated(Take(g, Record(now)), 0, records - 1, now);
      FewerIsNoCrowd(Take(g, Record(now)), steps[1..], g.inFlight - 1, g.inFlight);
    } else {
    }
  }

  lemma {:induction false} FewerIsNoCrowd(g: Gate, steps: seq<Step>, m: nat, n: nat)
    requires Crowd(g, steps, m) && m <= n
    ensures Crowd(g, steps, n)
    decreases |steps|
  {
    if steps == [] {
    } else {
      FewerIsNoCrowd(Take(g, steps[0]), steps[1..], m, n);
    }
  }

  /** `k` callers that take turns, and then the surge. */
  function TurnsThen(k: nat, m: nat, now: int): (steps: seq<Step>)
    ensures forall s | s in steps :: s.at == now
  {
    if k == 0 then Surge(m, m, now) else [Check(now), Record(now)] + TurnsThen(k - 1, m, now)
  }

  lemma {:induction false} TurnsAreEvaluated(t: Throttle, k: nat, m: nat, now: int)
    requires m >= 1 && t.blockedTo <= now && t.failures + k < THROTTLE_AFTER
    ensures var steps := TurnsThen(k, m, now);
            Evaluated(Gate(t, 0), steps, now, now + THROTTLE_FOR) == k + m && Crowd(Gate(t, 0), steps, m)
    decreases k
  {
    var steps := TurnsThen(k, m, now);
    if k == 0 {
      SurgeIsEvaluated(Gate(t, 0), m, m, now);
    } else {
      var t' := t.(failures := t.failures + 1);
      assert steps[1..][1..] == TurnsThen(k - 1, m, now);
      assert Take(Take(Gate(t, 0), steps[0]), steps[1..][0]) == Gate(t', 0);
      TurnsAreEvaluated(t', k - 1, m, now);
    }
  }

  /** The bound is reached, for every `m`: so with callers that overlap at will, any number is evaluated at one instant. */
  lemma BoundIsReached(t: Throttle, m: nat, now: int)
    requires m >= 1 && t.failures == 0 && t.blockedTo <= now
    ensures var steps := TurnsThen(THROTTLE_AFTER - 1, m, now);
            && InOrder(steps) && Crowd(Gate(t, 0), steps, m)
            && Evaluated(Gate(t, 0), steps, now, now + THROTTLE_FOR) == m + THROTTLE_AFTER - 1
  {
    TurnsAreEvaluated(t, THROTTLE_AFTER - 1, m, now);
  }

  // ---------- the two files ----------

  /** auth/password and auth/disabled. */
  datatype Files = Files(password: bool, marker: bool)

  datatype Status = Set | Disabled | Unset

  function StatusOf(f: Files): Status {
    if f.password then Set else if f.marker then Disabled else Unset
  }

  /** An operation that stops, by a crash or an error, after `steps` of its file steps; two let every one finish. */
  datatype Op = SetPassword(steps: nat) | Disable(verified: bool, steps: nat) | Skip(steps: nat) | AuthDisabled | Reset(steps: nat)

  function Do(f: Files, op: Op): Files {
    match op
    case SetPassword(n) =>
      var f1 := if n > 0 then f.(password := true) else f;
      if n > 1 then f1.(marker := false) else f1
    case Disable(verified, n) =>
      if !verified then f
      else
        var f1 := if n > 0 then f.(marker := true) else f;
        if n > 1 then f1.(password := false) else f1
    case Skip(n) => if f.password || n == 0 then f else f.(marker := true)
    case AuthDisabled => if f.password then f.(marker := false) else f
    case Reset(n) =>
      var f1 := if n > 0 then f.(password := false) else f;
      if n > 1 then f1.(marker := false) else f1
  }

  function Run(f: Files, ops: seq<Op>): Files
    decreases |ops|
  {
    if ops == [] then f else Run(Do(f, ops[0]), ops[1..])
  }

  /** Whatever stops where, a volume whose protection was decided on never looks fresh again, unless it is reset. */
  lemma {:induction false} NeverUnsetAgain(f: Files, ops: seq<Op>)
    requires StatusOf(f) != Unset && forall op | op in ops :: !op.Reset?
    ensures StatusOf(Run(f, ops)) != Unset
    decreases |ops|
  {
    if ops == [] {
    } else {
      assert ops[0] in ops;
      NeverUnsetAgain(Do(f, ops[0]), ops[1..]);
    }
  }

  /** What each operation comes to when it is not cut short. */
  lemma CompleteOperations(f: Files)
    ensures Do(f, SetPassword(2)) == Files(true, false)
    ensures StatusOf(f) == Set ==> Do(f, Disable(true, 2)) == Files(false, true)
    ensures Do(f, Disable(false, 2)) == f
    ensures StatusOf(Do(f, Skip(2))) == if StatusOf(f) == Set then Set else Disabled
    ensures StatusOf(f) == Set ==> Do(f, Skip(2)) == f
    ensures StatusOf(Do(f, AuthDisabled)) == StatusOf(f)
    ensures StatusOf(Do(f, Reset(2))) == Unset
  {
  }

  /** A password is in force until Disable's last step, and from SetPassword's first. */
  lemma PasswordHoldsUntilTheLastStep(f: Files, n: nat)
    ensures StatusOf(f) == Set ==> StatusOf(Do(f, Disable(true, n))) == if n > 1 then Disabled else Set
    ensures StatusOf(Do(f, SetPassword(n))) == if n > 0 then Set else StatusOf(f)
  {
  }

  /** The second step of Disable after other operations came between its two. */
  function DisableAround(f: Files, between: seq<Op>): Files {
    Run(Do(f, Disable(true, 1)), between).(password := false)
  }

  function Front(ops: seq<Op>): seq<Op>
    requires ops != []
  {
    ops[..|ops| - 1]
  }

  /** Whether there is a password after `ops`, read from their end, when there was one before. */
  function PasswordLeft(ops: seq<Op>): bool
    decreases |ops|
  {
    if ops == [] then true
    else match ops[|ops| - 1]
      case SetPassword(n) => n > 0 || PasswordLeft(Front(ops))
      case Disable(verified, n) => !(verified && n > 1) && PasswordLeft(Front(ops))
      case Reset(n) => n == 0 && PasswordLeft(Front(ops))
      case _ => PasswordLeft(Front(ops))
  }

  /** Reading from the end, the last operation that touches the marker removes it: an AuthDisabled that finds a password, a
      complete SetPassword or Reset, against a verified Disable or a Skip that finds no password, which write it. */
  predicate MarkerRemoved(ops: seq<Op>)
    decreases |ops|
  {
    if ops == [] then false
    else match ops[|ops| - 1]
      case AuthDisabled => PasswordLeft(Front(ops)) || MarkerRemoved(Front(ops))
      case SetPassword(n) => n > 1 || MarkerRemoved(Front(ops))
      case Reset(n) => n > 1 || MarkerRemoved(Front(ops))
      case Disable(verified, n) => !(verified && n > 0) && MarkerRemoved(Front(ops))
      case Skip(n) => (PasswordLeft(Front(ops)) || n == 0) && MarkerRemoved(Front(ops))
  }

  lemma {:induction false} RunFront(f: Files, ops: seq<Op>)
    requires ops != []
    ensures Run(f, ops) == Do(Run(f, Front(ops)), ops[|ops| - 1])
    decreases |ops|
  {
    if |ops| == 1 {
      assert ops[1..] == [] && Front(ops) == [];
    } else {
      assert Front(ops)[1..] == Front(ops[1..]);
      RunFront(Do(f, ops[0]), ops[1..]);
    }
  }

  lemma {:induction false} FilesLeft(f: Files, ops: seq<Op>)
    requires f == Files(true, true)
    ensures Run(f, ops) == Files(PasswordLeft(ops), !MarkerRemoved(ops))
    decreases |ops|
  {
    if ops == [] {
    } else {
      RunFront(f, ops);
      FilesLeft(f, Front(ops));
    }
  }

  /** Whatever is done between Disable's two steps, the volume looks fresh after the second exactly when the last operation
      that touched the marker removed it; otherwise Disable has its effect. */
  lemma DisableIsUndoneIff(f: Files, between: seq<Op>)
    requires StatusOf(f) == Set
    ensures StatusOf(DisableAround(f, between)) == Unset <==> MarkerRemoved(between)
    ensures StatusOf(DisableAround(f, between)) != Unset ==> StatusOf(DisableAround(f, between)) == Disabled
  {
    FilesLeft(Do(f, Disable(true, 1)), between);
  }

  predicate RemovesMarker(op: Op) {
    op.AuthDisabled? || (op.SetPassword? && op.steps > 1)
  }

  /** With one Disable at a time and no reset, that is when any AuthDisabled or complete SetPassword came between. */
  lemma LoneDisableIsUndoneIff(f: Files, between: seq<Op>)
    requires StatusOf(f) == Set && forall op | op in between :: !op.Disable? && !op.Reset?
    ensures StatusOf(DisableAround(f, between)) == Unset <==> exists op :: op in between && RemovesMarker(op)
  {
    MarkerStaysIff(Do(f, Disable(true, 1)), between);
  }

  lemma {:induction false} MarkerStaysIff(f: Files, ops: seq<Op>)
    requires f.password && forall op | op in ops :: !op.Disable? && !op.Reset?
    ensures Run(f, ops).password
    ensures Run(f, ops).marker <==> f.marker && forall op | op in ops :: !RemovesMarker(op)
    decreases |ops|
  {
    if ops == [] {
    } else {
      assert ops[0] in ops;
      MarkerStaysIff(Do(f, ops[0]), ops[1..]);
      assert forall op | op in ops :: op == ops[0] || op in ops[1..];
    }
  }

  class SessionManager {
    var password: bool
    var marker: bool
    var sessions: set<string>
    var failures: nat
    var blockedTo: int

    constructor (password: bool, marker: bool)
      ensures FilesNow() == Files(password, marker) && ThrottleNow() == Throttle(0, -1) && sessions == {}
    {
      this.password, this.marker, sessions, failures, blockedTo := password, marker, {}, 0, -1;
    }

    function FilesNow(): Files
      reads this
    {
      Files(password, marker)
    }

    function ThrottleNow(): Throttle
      reads this
    {
      Throttle(failures, blockedTo)
    }

    /** None when the password file cannot be read. */
    method VerifyPassword(correct: bool, at: int, done: int) returns (v: Option<Verdict>)
      modifies this`failures, this`blockedTo
      ensures at >= old(blockedTo) && !password ==> v == None && ThrottleNow() == old(ThrottleNow())
      ensures at < old(blockedTo) || password ==>
                v.Some? && (v.value, ThrottleNow()) == Verify(old(ThrottleNow()), at, done, correct)
    {
      var blocked := CheckBlock(at);
      if blocked {
        return Some(Throttled);
      }
      if !password {
        return None;
      }
      RecordOutcome(correct, done);
      v := Some(if correct then Accepted else Wrong);
    }

    /** The first time the mutex is held. */
    method CheckBlock(at: int) returns (blocked: bool)
      ensures blocked <==> Take(Gate(ThrottleNow(), 0), Check(at)).inFlight == 0
      ensures blocked <==> at < blockedTo
    {
      blocked := at < blockedTo;
    }

    /** The second time. */
    method RecordOutcome(correct: bool, done: int)
      modifies this`failures, this`blockedTo
      ensures ThrottleNow() == if correct then old(ThrottleNow()).(failures := 0)
                               else Take(Gate(old(ThrottleNow()), 1), Record(done)).t
    {
      if correct {
        failures := 0;
        return;
      }
      failures := failures + 1;
      if failures >= THROTTLE_AFTER {
        blockedTo := done + THROTTLE_FOR;
        failures := 0;
      }
    }

    /** `steps` of the two file steps happen before the process dies or a step fails. */
    method DisableProtection(correct: bool, at: int, done: int, steps: nat) returns (ok: bool)
      modifies this
      ensures FilesNow() == Do(old(FilesNow()), Disable(at >= old(blockedTo) && old(password) && correct, steps))
      ensures ok <==> at >= old(blockedTo) && old(password) && correct && steps > 1
      ensures sessions == if ok then {} else old(sessions)
    {
      var v := VerifyPassword(correct, at, done);
      if v != Some(Accepted) || steps == 0 {
        return false;
      }
      marker := true;
      if steps == 1 {
        return false;
      }
      password := false;
      sessions := {};
      ok := true;
    }

    method StorePassword(steps: nat) returns (ok: bool)
      modifies this`password, this`marker
      ensures FilesNow() == Do(old(FilesNow()), SetPassword(steps)) && (ok <==> steps > 1)
    {
      if steps == 0 {
        return false;
      }
      password := true;
      if steps == 1 {
        return false;
      }
      marker := false;
      ok := true;
    }

    method SkipProtection(steps: nat) returns (ok: bool)
      modifies this`marker
      ensures FilesNow() == Do(old(FilesNow()), Skip(steps)) && (ok <==> !password && steps > 0)
    {
      ok := !password && steps > 0;
      if ok {
        marker := true;
      }
    }

    /** A password wins over the marker, which is then removed. */
    method IsDisabled() returns (disabled: bool)
      modifies this`marker
      ensures FilesNow() == Do(old(FilesNow()), AuthDisabled)
      ensures disabled <==> StatusOf(old(FilesNow())) == Disabled
    {
      if password {
        marker := false;
        return false;
      }
      disabled := marker;
    }
  }
}
