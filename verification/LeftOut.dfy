// A timer that a tie kept out of the set: what becomes of it.

module LeftOut {
  import opened Base
  import opened Timers

  predicate InSet<K(==), C>(t: TimerSet<K, C>, k: K) {
    FindKey(t.order, k).Some?
  }

  /** The element at this timer's deadline goes, and the deadline the timer goes to is free then. */
  predicate Swaps<K, C>(order: seq<Entry<K, C>>, e: Entry<K, C>, next: int) {
    Tie(order, e.next) && (next == e.next || !Tie(order, next))
  }

  /** The operations that bring a timer back which has its callback but is not in the set: its own refresh or reset,
      while some other timer has the deadline it had. */
  predicate BringsBack<K(==), C>(t: TimerSet<K, C>, op: TimerOp<K, C>, now: int, k: K)
    requires k in t.limbo
  {
    var e := t.limbo[k];
    match op
    case OpRefresh(c) => c == k && Swaps(t.order, e, now + e.ms)
    case OpReset(c, ms, fromNow) =>
      c == k && !(ms == e.ms && !fromNow) && Swaps(t.order, e, Moved(e, ms, fromNow, now).next)
    case _ => false
  }

  /** The timer that finds itself taken out when timer k, which is not in the set, is erased by its deadline. */
  function Victim<K, C>(t: TimerSet<K, C>, k: K): K
    requires k in t.limbo && Tie(t.order, t.limbo[k].next)
  {
    t.order[Find(t.order, t.limbo[k].next).value].key
  }

  // ---------- elements of sequences ----------

  ghost predicate Absent<K, C>(es: seq<Entry<K, C>>, k: K) {
    forall i :: 0 <= i < |es| ==> es[i].key != k
  }

  lemma AbsentIff<K, C>(es: seq<Entry<K, C>>, k: K)
    ensures Absent(es, k) <==> FindKey(es, k).None?
  {
  }

  lemma {:induction false} InsertAbsent<K, C>(es: seq<Entry<K, C>>, e: Entry<K, C>, k: K)
    requires Absent(es, k) && e.key != k
    ensures Absent(Insert(es, e), k)
  {
    if es != [] && e.next > es[0].next {
      assert Absent(es[1..], k);
      InsertAbsent(es[1..], e, k);
    }
  }

  lemma InsertOrDropAbsent<K, C>(t: TimerSet<K, C>, e: Entry<K, C>, k: K)
    requires k in t.limbo && Absent(t.order, k) && e.key != k
    ensures var t' := InsertOrDrop(t, e); k in t'.limbo && Absent(t'.order, k) && t'.limbo[k] == t.limbo[k]
  {
    InsertAbsent(t.order, e, k);
  }

  lemma EraseAbsent<K, C>(t: TimerSet<K, C>, e: Entry<K, C>, k: K)
    requires Absent(t.order, k) && Tie(t.order, e.next)
    ensures Absent(EraseFound(t, e).order, k)
    ensures k in t.limbo && e.key != k ==> k in EraseFound(t, e).limbo
  {
    var i := Find(t.order, e.next).value;
    var r := EraseAt(t.order, i);
    assert forall j :: 0 <= j < |r| ==> r[j] == if j < i then t.order[j] else t.order[j + 1];
  }

  lemma {:induction false} RearmAbsent<K, C>(t: TimerSet<K, C>, es: seq<Entry<K, C>>, now: int, k: K)
    requires k in t.limbo && Absent(t.order, k) && Absent(es, k)
    ensures var t' := Rearm(t, es, now); k in t'.limbo && Absent(t'.order, k) && t'.limbo[k] == t.limbo[k]
    decreases |es|
  {
    if es != [] {
      assert es[0].key != k && Absent(es[1..], k);
      hide Absent;
      InsertOrDropAbsent(t, es[0].(next := now + es[0].ms), k);
      RearmAbsent(RearmOne(t, es[0], now), es[1..], now, k);
    }
  }

  // ---------- one operation ----------

  lemma SweepLeavesItOut<K, C>(t: TimerSet<K, C>, now: int, k: K)
    requires k in t.limbo && Absent(t.order, k)
    ensures var (t', handed) := Sweep(t, now);
            k in t'.limbo && Absent(t'.order, k) && Absent(handed, k) && t'.limbo[k] == t.limbo[k]
  {
    hide Rearm, DuePrefix, Rollover;
    var d := if Rollover(t, now) then |t.order| else DuePrefix(t.order, now);
    RearmAbsent(t.(order := t.order[d..], previous := now), t.order[..d], now, k);
  }

  lemma VictimLeaves<K, C>(t: TimerSet<K, C>, k: K, next: int)
    requires Valid(t) && k in t.limbo && Tie(t.order, t.limbo[k].next)
    ensures var t1, v := EraseFound(t, t.limbo[k]), Victim(t, k);
            && Sorted(t1.order) && Absent(t1.order, k) && Absent(t1.order, v) && v != k && v in t1.limbo
            && (Tie(t1.order, next) <==> Tie(t.order, next) && next != t.limbo[k].next)
  {
    var e := t.limbo[k];
    var i := Find(t.order, e.next).value;
    EraseSorted(t.order, i);
    EraseKeys(t.order, i);
    EraseAbsent(t, e, k);
    ErasedTie(t.order, i, next);
  }

  lemma InsertedIff<K, C>(t: TimerSet<K, C>, e: Entry<K, C>, v: K)
    requires Sorted(t.order) && Absent(t.order, e.key) && Absent(t.order, v) && v != e.key && v in t.limbo
    ensures var t' := InsertOrDrop(t, e);
            && (InSet(t', e.key) <==> !Tie(t.order, e.next)) && (Tie(t.order, e.next) ==> e.key in t'.limbo)
            && v in t'.limbo && !InSet(t', v)
  {
    hide Insert, Find, FindKey;
    if Tie(t.order, e.next) {
      AbsentIff(t.order, e.key);
      AbsentIff(t.order, v);
    } else {
      InsertSorted(t.order, e);
      InsertAbsent(t.order, e, v);
      AbsentIff(Insert(t.order, e), v);
      assert e in Insert(t.order, e);
    }
  }

  /** Its own refresh or reset takes out the timer at its deadline and takes that one's place, if the new deadline is
      free then. */
  lemma ReinsertedIff<K, C>(t: TimerSet<K, C>, k: K, e': Entry<K, C>)
    requires Valid(t) && k in t.limbo && Tie(t.order, t.limbo[k].next) && e'.key == k
    ensures var t' := InsertOrDrop(EraseFound(t, t.limbo[k]), e');
            && (InSet(t', k) <==> Swaps(t.order, t.limbo[k], e'.next))
            && (!Swaps(t.order, t.limbo[k], e'.next) ==> k in t'.limbo)
            && Victim(t, k) != k && Victim(t, k) in t'.limbo && !InSet(t', Victim(t, k))
  {
    hide Valid, InsertOrDrop, EraseFound, Victim, Tie, InSet, Sorted, Absent;
    VictimLeaves(t, k, e'.next);
    InsertedIff(EraseFound(t, t.limbo[k]), e', Victim(t, k));
  }

  lemma ErasedTie<K, C>(es: seq<Entry<K, C>>, i: nat, next: int)
    requires Sorted(es) && i < |es|
    ensures Tie(EraseAt(es, i), next) <==> Tie(es, next) && next != es[i].next
  {
    hide Find, EraseAt;
    EraseSorted(es, i);
    if Tie(EraseAt(es, i), next) {
      var j := Find(EraseAt(es, i), next).value;
      assert EraseAt(es, i)[j] in es;
    }
    if Tie(es, next) && next != es[i].next {
      var j := Find(es, next).value;
      assert es[j] in EraseAt(es, i);
    }
  }

  /** A timer that is not k is moved or cancelled. */
  lemma OtherLeavesItOut<K, C>(t: TimerSet<K, C>, op: TimerOp<K, C>, now: int, k: K)
    requires Valid(t) && k in t.limbo && (op.OpCancel? || op.OpRefresh? || op.OpReset?) && op.key != k
    ensures var t' := Operated(t, op, now); k in t'.limbo && !InSet(t', k)
  {
    hide Valid, InsertOrDrop, EraseFound, Tie, Live, Absent, FindKey;
    OutsideIsAbsent(t, k);
    AbsentIff(t.order, k);
    if Live(t, op.key).Some? {
      var e := Live(t, op.key).value;
      LiveKey(t, op.key);
      if Tie(t.order, e.next) {
        EraseAbsent(t, e, k);
        AbsentIff(EraseFound(t, e).order, k);
        match op {
          case OpCancel(_) =>
          case OpRefresh(_) => BackAbsent(EraseFound(t, e), e.(next := now + e.ms), k);
          case OpReset(_, ms, fromNow) => BackAbsent(EraseFound(t, e), Moved(e, ms, fromNow, now), k);
        }
      }
    }
  }

  lemma OutsideIsAbsent<K, C>(t: TimerSet<K, C>, k: K)
    requires Valid(t) && k in t.limbo
    ensures Absent(t.order, k)
  {
  }

  lemma BackAbsent<K, C>(t: TimerSet<K, C>, e: Entry<K, C>, k: K)
    requires k in t.limbo && Absent(t.order, k) && e.key != k
    ensures k in InsertOrDrop(t, e).limbo && !InSet(InsertOrDrop(t, e), k)
    ensures k in Add(t, e).limbo && !InSet(Add(t, e), k)
  {
    InsertOrDropAbsent(t, e, k);
    AbsentIff(InsertOrDrop(t, e).order, k);
  }

  /** The set after an operation on a timer that exists, or after getNextTimer or a sweep. */
  function Operated<K(==), C>(t: TimerSet<K, C>, op: TimerOp<K, C>, now: int): TimerSet<K, C>
    requires !op.OpAdd?
  {
    match op
    case OpCancel(c) => Cancel(t, c).0
    case OpRefresh(c) => Refresh(t, c, now).0
    case OpReset(c, ms, fromNow) => Reset(t, c, ms, fromNow, now).0
    case OpGetNext => GetNext(t, now).0
    case OpSweep => Sweep(t, now).0
  }

  /** Its own refresh or reset. */
  lemma OwnBringsBackIff<K, C>(t: TimerSet<K, C>, op: TimerOp<K, C>, now: int, k: K)
    requires Valid(t) && k in t.limbo && (op.OpRefresh? || op.OpReset?) && op.key == k
    ensures var t' := Operated(t, op, now);
            && (InSet(t', k) <==> BringsBack(t, op, now, k)) && (!BringsBack(t, op, now, k) ==> k in t'.limbo)
            && (BringsBack(t, op, now, k) ==>
                  InSet(t, Victim(t, k)) && Victim(t, k) in t'.limbo && !InSet(t', Victim(t, k)))
  {
    hide Valid, InsertOrDrop, EraseFound, Tie, Absent, FindKey;
    OutsideIsAbsent(t, k);
    AbsentIff(t.order, k);
    OutsideIsLive(t, k);
    var e := t.limbo[k];
    if Tie(t.order, e.next) {
      VictimIsIn(t, k);
      if op.OpRefresh? {
        ReinsertedIff(t, k, e.(next := now + e.ms));
      } else {
        ReinsertedIff(t, k, Moved(e, op.ms, op.fromNow, now));
        AddIsInsert(EraseFound(t, e), Moved(e, op.ms, op.fromNow, now));
      }
    }
  }

  lemma OutsideIsLive<K, C>(t: TimerSet<K, C>, k: K)
    requires Valid(t) && k in t.limbo
    ensures Live(t, k) == Some(t.limbo[k]) && t.limbo[k].key == k
  {
  }

  lemma VictimIsIn<K, C>(t: TimerSet<K, C>, k: K)
    requires k in t.limbo && Tie(t.order, t.limbo[k].next)
    ensures InSet(t, Victim(t, k))
  {
  }

  lemma AddIsInsert<K, C>(t: TimerSet<K, C>, e: Entry<K, C>)
    ensures Add(t, e).order == InsertOrDrop(t, e).order && Add(t, e).limbo == InsertOrDrop(t, e).limbo
  {
  }

  /** A timer that has its callback and is not in the set comes back iff it is refreshed or reset while another timer
      has the deadline it had, and finds its new deadline free; then that other timer is the one left out. No sweep
      hands it out, and nothing but its own cancel takes its callback. */
  lemma BackIff<K(!new), C>(l: Ledger<K, C>, op: TimerOp<K, C>, now: int, k: K)
    requires Valid(l.set_) && k in l.set_.limbo && k in l.kinds
    ensures var t, l' := l.set_, Record(l, op, now);
            && (InSet(l'.set_, k) <==> BringsBack(t, op, now, k))
            && (BringsBack(t, op, now, k) ==>
                  InSet(t, Victim(t, k)) && Victim(t, k) in l'.set_.limbo && !InSet(l'.set_, Victim(t, k)))
            && (!BringsBack(t, op, now, k) && op != OpCancel(k) ==> k in l'.set_.limbo)
            && Fired(l', k) == Fired(l, k)
  {
    hide Valid, Add, Cancel, Refresh, Reset, Sweep, Absent, FindKey, Sum;
    OutsideIsAbsent(l.set_, k);
    AbsentIff(l.set_.order, k);
    match op {
      case OpAdd(c, ms, recurring, cb) =>
        if c !in l.kinds {
          BackAbsent(l.set_, Entry(c, now + ms, ms, recurring, cb), k);
        }
      case OpCancel(c) =>
        if c == k {
          CancelledIsOut(l.set_, k);
        } else {
          OtherLeavesItOut(l.set_, op, now, k);
        }
      case OpGetNext =>
      case OpSweep =>
        SweepLeavesItOut(l.set_, now, k);
        var handed := Sweep(l.set_, now).1;
        AbsentIff(Sweep(l.set_, now).0.order, k);
        SumAppend(l.handed, handed, HasKey(k));
        AbsentWeighsNothing(handed, k);
      case _ =>
        if op.key == k {
          OwnBringsBackIff(l.set_, op, now, k);
        } else {
          OtherLeavesItOut(l.set_, op, now, k);
        }
    }
  }

  lemma CancelledIsOut<K, C>(t: TimerSet<K, C>, k: K)
    requires Valid(t) && k in t.limbo
    ensures !InSet(Cancel(t, k).0, k)
  {
    hide FindKey;
    OutsideIsAbsent(t, k);
    OutsideIsLive(t, k);
    if Tie(t.order, t.limbo[k].next) {
      EraseAbsent(t, t.limbo[k], k);
    }
    AbsentIff(Cancel(t, k).0.order, k);
  }

  lemma AbsentWeighsNothing<K, C>(es: seq<Entry<K, C>>, k: K)
    requires Absent(es, k)
    ensures Sum(es, HasKey(k)) == 0
  {
    SumZero(es, HasKey(k));
  }

  // ---------- who is in the set afterwards ----------

  /** In the set afterwards: what was there at another deadline, and `back` if it is given and its deadline is free. */
  ghost predicate Keeps<K, C>(before: seq<Entry<K, C>>, after: seq<Entry<K, C>>, next: int, back: Option<Entry<K, C>>) {
    var isFree := back.Some? && forall y :: y in before && y.next != next ==> y.next != back.value.next;
    && (forall x :: x in after ==> (x in before && x.next != next) || (isFree && x == back.value))
    && (forall x :: x in before && x.next != next ==> x in after)
    && (isFree ==> back.value in after)
  }

  /** cancel, refresh and reset of a timer with a callback go by its deadline: they take out whichever timer the set has
      there, its own or another one, and none if there is none. cancel answers yes; refresh and reset do iff they
      found one or have nothing to move, and put their timer back at its new deadline unless that is taken. */
  lemma OperationsGoByDeadline<K, C>(t: TimerSet<K, C>, k: K, ms: nat, fromNow: bool, now: int)
    requires Valid(t) && Live(t, k).Some?
    ensures var e := Live(t, k).value;
            var there := exists x :: x in t.order && x.next == e.next;
            && Keeps(t.order, Cancel(t, k).0.order, e.next, None) && Cancel(t, k).1
            && (Refresh(t, k, now).1 <==> there)
            && (there ==> Keeps(t.order, Refresh(t, k, now).0.order, e.next, Some(e.(next := now + e.ms))))
            && (Reset(t, k, ms, fromNow, now).1 <==> (ms == e.ms && !fromNow) || there)
            && (there && !(ms == e.ms && !fromNow) ==>
                  Keeps(t.order, Reset(t, k, ms, fromNow, now).0.order, e.next, Some(Moved(e, ms, fromNow, now))))
  {
    hide Valid, EraseFound, InsertOrDrop, Add, Find;
    var e := Live(t, k).value;
    ThereIsATie(t.order, e.next);
    if Tie(t.order, e.next) {
      ErasedKeeps(t, e, e.(next := now + e.ms));
      ErasedKeeps(t, e, Moved(e, ms, fromNow, now));
    }
  }

  lemma ThereIsATie<K, C>(es: seq<Entry<K, C>>, next: int)
    ensures Tie(es, next) <==> exists x :: x in es && x.next == next
    ensures !Tie(es, next) ==> Keeps(es, es, next, None)
  {
    if Tie(es, next) {
      assert es[Find(es, next).value] in es;
    }
  }

  /** The elements left by the erasure. */
  lemma ErasedElements<K, C>(t: TimerSet<K, C>, e: Entry<K, C>)
    requires Valid(t) && Tie(t.order, e.next)
    ensures var order := EraseFound(t, e).order;
            && Sorted(order) && Keeps(t.order, order, e.next, None)
            && forall x :: x in order <==> x in t.order && x.next != e.next
  {
    var i := Find(t.order, e.next).value;
    EraseSorted(t.order, i);
    OneAtItsDeadline(t.order, i);
  }

  lemma ErasedKeeps<K, C>(t: TimerSet<K, C>, e: Entry<K, C>, back: Entry<K, C>)
    requires Valid(t) && Tie(t.order, e.next)
    ensures Keeps(t.order, EraseFound(t, e).order, e.next, None)
    ensures Keeps(t.order, InsertOrDrop(EraseFound(t, e), back).order, e.next, Some(back))
    ensures Add(EraseFound(t, e), back).order == InsertOrDrop(EraseFound(t, e), back).order
  {
    hide Valid, EraseFound, Sorted, Insert, Find, Tie;
    var order := EraseFound(t, e).order;
    ErasedElements(t, e);
    ThereIsATie(order, back.next);
    InsertSorted(order, back);
  }

  lemma OneAtItsDeadline<K, C>(es: seq<Entry<K, C>>, i: nat)
    requires Sorted(es) && i < |es|
    ensures forall x :: x in es ==> (x == es[i] <==> x.next == es[i].next)
  {
  }

  // ---------- every run ----------

  /** Nobody refreshes, resets or cancels timer k. */
  predicate LeavesAlone<K(==), C>(run: seq<(TimerOp<K, C>, int)>, k: K) {
    forall i :: 0 <= i < |run| ==> var op := run[i].0; (op.OpCancel? || op.OpRefresh? || op.OpReset?) ==> op.key != k
  }

  lemma RecordStaysValid<K(!new), C>(l: Ledger<K, C>, op: TimerOp<K, C>, now: int, k: K)
    requires Valid(l.set_) && KnownKeys(l)
    ensures Valid(Record(l, op, now).set_)
  {
    hide Add, Cancel, Refresh, Reset, Sweep, Live, Valid, KnownKeys, GetNext, DistinctKeys, FindKey;
    match op {
      case OpAdd(c, ms, recurring, cb) =>
        if c !in l.kinds {
          NewKeyIsDead(l, c);
          AddLive(l.set_, Entry(c, now + ms, ms, recurring, cb), k);
        }
      case OpCancel(c) => CancelLive(l.set_, c, k);
      case OpRefresh(c) => RefreshLive(l.set_, c, now, k);
      case OpReset(c, ms, fromNow) => ResetLive(l.set_, c, ms, fromNow, now, k);
      case OpGetNext => GetNextLive(l.set_, now, k);
      case OpSweep => SweepLive(l.set_, now, k);
    }
  }

  /** Over every run in which nobody refreshes, resets or cancels it, whatever else happens: a timer that was left out
      of the set keeps its callback, stays out, and its callback is never handed out again. */
  lemma {:induction false} StaysOut<K(!new), C>(l: Ledger<K, C>, run: seq<(TimerOp<K, C>, int)>, k: K)
    requires Valid(l.set_) && KnownKeys(l) && k in l.set_.limbo && k in l.kinds && LeavesAlone(run, k)
    ensures var l' := RecordAll(l, run); k in l'.set_.limbo && !InSet(l'.set_, k) && Fired(l', k) == Fired(l, k)
    decreases |run|
  {
    if run == [] {
      OutsideIsAbsent(l.set_, k);
      AbsentIff(l.set_.order, k);
    } else {
      var op, now := run[0].0, run[0].1;
      assert !BringsBack(l.set_, op, now, k) && op != OpCancel(k);
      assert LeavesAlone(run[1..], k);
      hide Record, Valid, KnownKeys, InSet, BringsBack, LeavesAlone, Fired;
      BackIff(l, op, now, k);
      KeysStayKnown(l, op, now);
      RecordStaysValid(l, op, now, k);
      StaysOut(Record(l, op, now), run[1..], k);
    }
  }

  /** The timer that a sweep did not put back beside another of its period comes back by its refresh, and the other
      one is left out instead. */
  lemma RefreshSwapsEqualPeriods<K, C>(a: K, b: K, ca: C, cb: C)
    requires a != b
    ensures var t := TimerSet([Entry(a, 5, 10, true, ca), Entry(b, 6, 10, true, cb)], map[], false, 0, None);
            var (t', ok) := Refresh(Sweep(t, 7).0, b, 8);
            ok && InSet(t', b) && !InSet(t', a) && a in t'.limbo
  {
    hide Sweep, Refresh, Valid, InSet;
    var t := TimerSet([Entry(a, 5, 10, true, ca), Entry(b, 6, 10, true, cb)], map[], false, 0, None);
    EqualPeriodsLoseATimer(a, b, ca, cb);
    OneOutOneIn(Sweep(t, 7).0, Entry(a, 17, 10, true, ca), Entry(b, 17, 10, true, cb));
  }

  lemma OneOutOneIn<K, C>(t: TimerSet<K, C>, x: Entry<K, C>, y: Entry<K, C>)
    requires t.order == [x] && t.limbo == map[y.key := y] && x.key != y.key && x.next == y.next == 17 && y.ms == 10
    ensures var (t', ok) := Refresh(t, y.key, 8); ok && InSet(t', y.key) && !InSet(t', x.key) && x.key in t'.limbo
  {
    assert [x][1..] == [];
    assert Tie([x], 17) && !Tie([x], 18) && Valid(t);
    OutsideIsLive(t, y.key);
    hide Valid, InSet;
    OwnBringsBackIff(t, OpRefresh(y.key), 8, y.key);
  }
}
