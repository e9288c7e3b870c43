/** The snapshot store's publish/subscribe: capacity-1 channels, delivery outside the lock, the newest snapshot replacing an
    unread one. */
module StateStore {
  import opened Wrappers
  import opened Daemon

  // ---------- the store, with a reader that may receive between any two channel operations ----------

  class Channel<T> {
    var slot: Option<T>
    /** What the reader has received, in order. */
    var got: seq<T>

    constructor (first: T)
      ensures slot == Some(first) && got == []
    {
      slot, got := Some(first), [];
    }

    /** A non-blocking send. */
    method TrySend(v: T) returns (sent: bool)
      modifies this`slot
      ensures sent <==> old(slot).None?
      ensures slot == if sent then Some(v) else old(slot)
    {
      sent := slot.None?;
      if sent {
        slot := Some(v);
      }
    }

    /** A non-blocking receive by the store itself. */
    method TryDrop()
      modifies this`slot
      ensures slot == None
    {
      slot := None;
    }

    /** The reader receives, or does not get to. */
    method ReaderRuns()
      modifies this
      ensures MayReceive(old(slot), old(got), slot, got)
    {
      var runs: bool := *;
      if runs && slot.Some? {
        got := got + [slot.value];
        slot := None;
      }
    }
  }

  ghost predicate MayReceive<T>(slot: Option<T>, got: seq<T>, slot': Option<T>, got': seq<T>) {
    (slot' == slot && got' == got) || (slot.Some? && slot' == None && got' == got + [slot.value])
  }

  /** What one Update with snapshot `v` does to a channel and its reader: the unread snapshot is received or replaced, then
      `v` is received or waits. */
  ghost predicate Delivered<T>(slot: Option<T>, got: seq<T>, v: T, slot': Option<T>, got': seq<T>) {
    || MayReceive(Some(v), got, slot', got')
    || (slot.Some? && MayReceive(Some(v), got + [slot.value], slot', got'))
  }

  class Store<T> {
    var cur: T
    var subs: set<Channel<T>>

    constructor (initial: T)
      ensures cur == initial && subs == {}
    {
      cur, subs := initial, {};
    }

    method Subscribe() returns (ch: Channel<T>)
      modifies this`subs
      ensures fresh(ch) && subs == old(subs) + {ch} && ch.slot == Some(cur) && ch.got == []
    {
      ch := new Channel(cur);
      subs := subs + {ch};
    }

    method Unsubscribe(ch: Channel<T>)
      modifies this`subs
      ensures subs == old(subs) - {ch}
    {
      subs := subs - {ch};
    }

    /** Update to `next`, with no other Update running: each subscriber ends up with the new snapshot, waiting or received. */
    method Update(next: T)
      modifies this`cur, subs
      ensures cur == next
      ensures forall ch | ch in subs :: Delivered(old(ch.slot), old(ch.got), next, ch.slot, ch.got)
      ensures forall ch | ch in subs :: ch.slot == Some(next) || (ch.slot == None && |ch.got| > |old(ch.got)| && ch.got[|ch.got| - 1] == next)
    {
      cur := next;
      var rest := subs;
      while rest != {}
        invariant cur == next && subs == old(subs) && rest <= subs
        invariant forall ch | ch in rest :: ch.slot == old(ch.slot) && ch.got == old(ch.got)
        invariant forall ch | ch in subs - rest :: Delivered(old(ch.slot), old(ch.got), next, ch.slot, ch.got)
        decreases rest
      {
        var ch :| ch in rest;
        rest := rest - {ch};
        Send(ch, next);
      }
    }

    method Send(ch: Channel<T>, v: T)
      modifies ch
      ensures Delivered(old(ch.slot), old(ch.got), v, ch.slot, ch.got)
    {
      ch.ReaderRuns();
      var sent := ch.TrySend(v);
      if !sent {
        ch.ReaderRuns();
        ch.TryDrop();
        ch.ReaderRuns();
        sent := ch.TrySend(v);
      }
      ch.ReaderRuns();
    }
  }

  // ---------- whole runs, with any number of updating goroutines ----------

  /** Where an Update is with one subscriber's channel; `snapshot` numbers the state it copied under the lock. */
  datatype Updater = Done | First(snapshot: nat) | Replace(snapshot: nat) | Again(snapshot: nat)

  /** A subscriber's channel and reader by snapshot number, and the updaters by name; `count` snapshots exist. */
  datatype World = World(count: nat, slot: Option<nat>, got: seq<nat>, updaters: map<nat, Updater>)

  datatype Event = Begin(updater: nat) | Operate(updater: nat) | Receive

  function UpdaterOf(w: World, u: nat): Updater {
    if u in w.updaters then w.updaters[u] else Done
  }

  function Step(w: World, e: Event): World {
    match e
    case Receive => if w.slot.None? then w else w.(slot := None, got := w.got + [w.slot.value])
    case Begin(u) => if UpdaterOf(w, u) != Done then w else w.(count := w.count + 1, updaters := w.updaters[u := First(w.count)])
    case Operate(u) =>
      match UpdaterOf(w, u)
      case Done => w
      case First(n) =>
        if w.slot.None? then w.(slot := Some(n), updaters := w.updaters[u := Done]) else w.(updaters := w.updaters[u := Replace(n)])
      case Replace(n) => w.(slot := None, updaters := w.updaters[u := Again(n)])
      case Again(n) => w.(slot := if w.slot.None? then Some(n) else w.slot, updaters := w.updaters[u := Done])
  }

  function Run(w: World, es: seq<Event>): World
    decreases |es|
  {
    if es == [] then w else Run(Step(w, es[0]), es[1..])
  }

  /** A new subscriber: the current snapshot is already in its channel. */
  function Subscribed(count: nat): World
    requires count > 0
  {
    World(count, Some(count - 1), [], map[])
  }

  predicate AllDone(w: World) {
    forall u | u in w.updaters :: w.updaters[u] == Done
  }

  /** No Update begins while another is still sending. */
  ghost predicate NoOverlap(w: World, es: seq<Event>)
    decreases |es|
  {
    es != [] ==> (es[0].Begin? ==> AllDone(w)) && NoOverlap(Step(w, es[0]), es[1..])
  }

  predicate Increasing(s: seq<nat>) {
    forall i, j | 0 <= i < j < |s| :: s[i] < s[j]
  }

  predicate Below(s: seq<nat>, n: nat) {
    forall i | 0 <= i < |s| :: s[i] < n
  }

  /** The newest snapshot waits in the channel, or is the last one received. */
  predicate Fresh(w: World) {
    w.slot == Some(w.count - 1) || (w.slot == None && w.got != [] && w.got[|w.got| - 1] == w.count - 1)
  }

  ghost predicate Ordered(w: World) {
    && w.count > 0 && Increasing(w.got)
    && Below(w.got, w.count) && (w.slot.Some? ==> w.slot.value < w.count && Below(w.got, w.slot.value))
    && (forall u, v | u in w.updaters && v in w.updaters && u != v :: w.updaters[u] == Done || w.updaters[v] == Done)
    && (AllDone(w) ==> Fresh(w))
    && (forall u | u in w.updaters && w.updaters[u] != Done ::
          && w.updaters[u].snapshot == w.count - 1 && Below(w.got, w.count - 1)
          && (w.slot.Some? ==> w.slot.value < w.count - 1)
          && (w.updaters[u].Again? ==> w.slot.None?))
  }

  lemma OrderedReceive(w: World)
    requires Ordered(w)
    ensures Ordered(Step(w, Receive))
  {
    var w' := Step(w, Receive);
    assert w'.updaters == w.updaters && w'.count == w.count;
    assert AllDone(w') <==> AllDone(w);
  }

  lemma OrderedBegin(w: World, u: nat)
    requires Ordered(w) && AllDone(w)
    ensures Ordered(Step(w, Begin(u)))
  {
    var w' := Step(w, Begin(u));
    assert u in w'.updaters && w'.updaters[u] == First(w.count);
    assert !AllDone(w');
  }

  /** The operation of the one active updater: it goes on, or leaves the newest snapshot behind. */
  lemma OrderedOperate(w: World, u: nat)
    requires Ordered(w) && UpdaterOf(w, u) != Done
    ensures Ordered(Step(w, Operate(u)))
  {
    var w' := Step(w, Operate(u));
    assert u in w.updaters && w.updaters[u].snapshot == w.count - 1;
    assert w'.got == w.got && w'.count == w.count;
    assert forall v | v in w.updaters && v != u :: w'.updaters[v] == w.updaters[v] == Done;
    if w'.updaters[u] == Done {
      assert w'.slot == Some(w.count - 1);
      assert AllDone(w') && Fresh(w');
    } else {
      assert !AllDone(w');
    }
  }

  lemma OrderedStep(w: World, e: Event)
    requires Ordered(w) && (e.Begin? ==> AllDone(w))
    ensures Ordered(Step(w, e))
  {
    hide Ordered, AllDone;
    match e {
      case Receive => OrderedReceive(w);
      case Begin(u) => OrderedBegin(w, u);
      case Operate(u) => if UpdaterOf(w, u) != Done { OrderedOperate(w, u); }
    }
  }

  lemma {:induction false} OrderedRun(w: World, es: seq<Event>)
    requires Ordered(w) && NoOverlap(w, es)
    ensures Ordered(Run(w, es))
    decreases |es|
  {
    if es == [] {
    } else {
      OrderedStep(w, es[0]);
      OrderedRun(Step(w, es[0]), es[1..]);
    }
  }

  /** While Updates do not overlap, a subscriber receives snapshots in update order, each at most once; and whenever no
      Update is running the newest one waits for it or is the last it received. */
  lemma SubscribersStayCurrent(count: nat, es: seq<Event>)
    requires count > 0 && NoOverlap(Subscribed(count), es)
    ensures var w := Run(Subscribed(count), es);
            Increasing(w.got) && (AllDone(w) ==> Fresh(w))
  {
    OrderedRun(Subscribed(count), es);
  }

  /** Two overlapping Updates can leave the older snapshot in the channel for good. */
  lemma OverlapCanLoseTheNewest(count: nat)
    requires count > 0
    ensures var es := [Receive, Begin(0), Begin(1), Operate(1), Operate(0), Operate(0), Operate(0)];
            var w := Run(Subscribed(count), es);
            AllDone(w) && w.count == count + 2 && w.slot == Some(count) && w.got == [count - 1]
  {
    var w0 := Subscribed(count);
    var w1 := Step(w0, Receive);
    var w2 := Step(w1, Begin(0));
    var w3 := Step(w2, Begin(1));
    var w4 := Step(w3, Operate(1));
    var w5 := Step(w4, Operate(0));
    var w6 := Step(w5, Operate(0));
    var w7 := Step(w6, Operate(0));
    assert w7.updaters == map[0 := Done, 1 := Done];
    var es: seq<Event> := [Receive, Begin(0), Begin(1), Operate(1), Operate(0), Operate(0), Operate(0)];
    RunCons(w0, es); RunCons(w1, es[1..]); RunCons(w2, es[2..]); RunCons(w3, es[3..]);
    RunCons(w4, es[4..]); RunCons(w5, es[5..]); RunCons(w6, es[6..]);
    assert es[7..] == [];
  }

  /** What goes into the channel at `e`, if anything. */
  function PutAt(w: World, e: Event): Option<nat> {
    if e.Operate? && w.slot.None? then
      match UpdaterOf(w, e.updater)
      case First(n) => Some(n)
      case Again(n) => Some(n)
      case _ => None
    else None
  }

  /** The snapshot put last into the channel over a run, `last` before it. */
  function LastPut(w: World, es: seq<Event>, last: nat): nat
    decreases |es|
  {
    if es == [] then last
    else
      var put := PutAt(w, es[0]);
      LastPut(Step(w, es[0]), es[1..], if put.Some? then put.value else last)
  }

  /** The snapshot put last waits, was received last, or has just been taken out by an updater that is about to put. */
  ghost predicate Holds(w: World, last: nat) {
    if w.slot.Some? then w.slot.value == last
    else (w.got != [] && w.got[|w.got| - 1] == last) || exists u :: u in w.updaters && w.updaters[u].Again?
  }

  lemma HoldsStep(w: World, e: Event, last: nat)
    requires Holds(w, last)
    ensures Holds(Step(w, e), if PutAt(w, e).Some? then PutAt(w, e).value else last)
  {
    var w' := Step(w, e);
    if e.Operate? && UpdaterOf(w, e.updater).Replace? {
      assert e.updater in w'.updaters && w'.updaters[e.updater].Again?;
    } else if w.slot.None? && w'.slot.None? && !(w.got != [] && w.got[|w.got| - 1] == last) {
      var u :| u in w.updaters && w.updaters[u].Again?;
      assert u in w'.updaters && w'.updaters[u].Again?;
    }
  }

  lemma {:induction false} HoldsRun(w: World, es: seq<Event>, last: nat)
    requires Holds(w, last)
    ensures Holds(Run(w, es), LastPut(w, es, last))
    decreases |es|
  {
    if es == [] {
    } else {
      HoldsStep(w, es[0], last);
      var put := PutAt(w, es[0]);
      HoldsRun(Step(w, es[0]), es[1..], if put.Some? then put.value else last);
    }
  }

  ghost predicate PutsNothing(w: World, es: seq<Event>)
    decreases |es|
  {
    es != [] ==> PutAt(w, es[0]).None? && PutsNothing(Step(w, es[0]), es[1..])
  }

  /** Some operation puts snapshot `n`, and no operation after it puts any. */
  ghost predicate PutsForGood(w: World, es: seq<Event>, n: nat)
    decreases |es|
  {
    es != [] &&
    var rest := Step(w, es[0]);
    (PutAt(w, es[0]) == Some(n) && PutsNothing(rest, es[1..])) || PutsForGood(rest, es[1..], n)
  }

  lemma {:induction false} LastPutIff(w: World, es: seq<Event>, last: nat, n: nat)
    ensures LastPut(w, es, last) == n <==> PutsForGood(w, es, n) || (last == n && PutsNothing(w, es))
    decreases |es|
  {
    hide Step, PutAt;
    if es == [] {
    } else {
      var put := PutAt(w, es[0]);
      LastPutIff(Step(w, es[0]), es[1..], if put.Some? then put.value else last, n);
    }
  }

  lemma {:induction false} CountGrows(w: World, es: seq<Event>)
    ensures Run(w, es).count >= w.count
    decreases |es|
  {
    if es == [] {
    } else {
      CountGrows(Step(w, es[0]), es[1..]);
    }
  }

  /** However the Updates overlap: when none is running, the subscriber is current exactly when the newest snapshot was the
      last to be put into its channel. */
  lemma CurrentIffNewestWasPutLast(count: nat, es: seq<Event>)
    requires count > 0 && AllDone(Run(Subscribed(count), es))
    ensures var w := Run(Subscribed(count), es);
            Fresh(w) <==> LastPut(Subscribed(count), es, count - 1) == w.count - 1
  {
    HoldsRun(Subscribed(count), es, count - 1);
  }

  /** As the schedule shows it: the newest Update's own put succeeds, and no older Update, whose put can only be stale, puts
      after it; or there was no Update to put anything. */
  lemma CurrentIffNewestPutsForGood(count: nat, es: seq<Event>)
    requires count > 0 && AllDone(Run(Subscribed(count), es))
    ensures var w := Run(Subscribed(count), es);
            && w.count >= count
            && (Fresh(w) <==>
                PutsForGood(Subscribed(count), es, w.count - 1) || (w.count == count && PutsNothing(Subscribed(count), es)))
  {
    CountGrows(Subscribed(count), es);
    CurrentIffNewestWasPutLast(count, es);
    LastPutIff(Subscribed(count), es, count - 1, Run(Subscribed(count), es).count - 1);
  }

  lemma RunCons(w: World, es: seq<Event>)
    requires es != []
    ensures Run(w, es) == Run(Step(w, es[0]), es[1..])
  {
  }

  // ---------- the waiter that relies on it ----------

  datatype Verdict = Waiting | Reached | Refused

  /** waitConnection over the connections it receives: the first that is the target or an error decides. */
  function WaitConnection(received: seq<Connection>, target: Connection): Verdict {
    if received == [] then Waiting
    else if received[0] == target then Reached
    else if received[0] == ConnError then Refused
    else WaitConnection(received[1..], target)
  }

  /** The waiter's loop; `inbox` is what its channel yields before its deadline. */
  method AwaitConnection(inbox: seq<Connection>, target: Connection) returns (v: Verdict)
    ensures v == WaitConnection(inbox, target)
    ensures v == Waiting <==> forall c | c in inbox :: c != target && c != ConnError
  {
    WaitDecides(inbox, target);
    for i := 0 to |inbox|
      invariant WaitConnection(inbox, target) == WaitConnection(inbox[i..], target)
    {
      assert inbox[i..][0] == inbox[i] && inbox[i..][1..] == inbox[i + 1..];
      if inbox[i] == target {
        return Reached;
      }
      if inbox[i] == ConnError {
        return Refused;
      }
    }
    v := Waiting;
  }

  lemma {:induction false} WaitDecides(received: seq<Connection>, target: Connection)
    ensures WaitConnection(received, target) == Waiting <==> forall c | c in received :: c != target && c != ConnError
    ensures WaitConnection(received, target) == Reached ==> target in received
  {
    if received == [] {
    } else {
      WaitDecides(received[1..], target);
      var rest := received[1..];
      assert received[0] in received && forall c | c in rest :: c in received;
      if WaitConnection(received, target) == Waiting {
        forall c | c in received ensures c != target && c != ConnError {
          assert c == received[0] || c in rest;
        }
      }
    }
  }

  /** The verdict is that of the first connection that is the target or an error. */
  lemma {:induction false} FirstDecides(received: seq<Connection>, target: Connection, i: nat)
    requires i < |received| && forall j | 0 <= j < i :: received[j] != target && received[j] != ConnError
    requires received[i] == target || received[i] == ConnError
    ensures WaitConnection(received, target) == if received[i] == target then Reached else Refused
  {
    if i == 0 {
    } else {
      FirstDecides(received[1..], target, i - 1);
    }
  }

  function Received(got: seq<nat>, conns: seq<Connection>): (r: seq<Connection>)
    requires Below(got, |conns|)
    ensures |r| == |got|
  {
    seq(|got|, i requires 0 <= i < |got| => conns[got[i]])
  }

  /** No final state is lost: once the updates stop with the target or an error showing, one more receive at the latest ends
      the wait. `conns` are the connections of all snapshots. */
  lemma FinalStateEndsTheWait(count: nat, es: seq<Event>, conns: seq<Connection>, target: Connection)
    requires count > 0 && NoOverlap(Subscribed(count), es) && AllDone(Run(Subscribed(count), es))
    requires |conns| == Run(Subscribed(count), es).count > 0 && conns[|conns| - 1] in {target, ConnError}
    ensures var w := Step(Run(Subscribed(count), es), Receive);
            Below(w.got, |conns|) && WaitConnection(Received(w.got, conns), target) != Waiting
  {
    OrderedRun(Subscribed(count), es);
    var w := Step(Run(Subscribed(count), es), Receive);
    var received := Received(w.got, conns);
    assert received[|received| - 1] == conns[|conns| - 1];
    assert conns[|conns| - 1] in received;
    WaitDecides(received, target);
  }
}
