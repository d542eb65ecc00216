// Timer::reset as it is written: the lock is given up between the erase and the insertion. A callback is an
// Option here; None is a null callback, which only the insertion of a cancelled timer can bring into the set.

module SplitReset {
  import opened Base
  import opened Timers

  /** The first half: the timer leaves the set and keeps its callback. */
  function Opened<K(==), C>(t: TimerSet<K, Option<C>>, k: K): TimerSet<K, Option<C>>
    requires Live(t, k).Some? && Tie(t.order, Live(t, k).value.next)
  {
    var t' := EraseFound(t, Live(t, k).value);
    t'.(limbo := t'.limbo[k := Live(t, k).value])
  }

  /** The second half: the timer e goes back at its new deadline, with the callback it has by then. */
  function Closed<K(==), C>(t: TimerSet<K, Option<C>>, e: Entry<K, Option<C>>, ms: nat, fromNow: bool, now: int)
    : TimerSet<K, Option<C>>
  {
    var cb := if Live(t, e.key).Some? then e.cb else None;
    Add(t.(limbo := t.limbo - {e.key}), Moved(e, ms, fromNow, now).(cb := cb))
  }

  type Run<K, C> = seq<(TimerOp<K, Option<C>>, int)>

  /** What other threads do between the halves cancels timer k. */
  predicate CancelsIn<K(==), C>(run: Run<K, C>, k: K) {
    exists i :: 0 <= i < |run| && run[i].0 == OpCancel(k)
  }

  /** No other timer is put at this deadline meanwhile. */
  ghost predicate Vacant<K, C>(l: Ledger<K, Option<C>>, run: Run<K, C>, next: int)
    decreases |run|
  {
    && !Tie(l.set_.order, next)
    && (run != [] ==> Vacant(Record(l, run[0].0, run[0].1), run[1..], next))
  }

  // ---------- one operation of another thread ----------

  /** A timer outside the set is touched by nothing but its own cancel. */
  lemma OneLeavesIt<K(!new), C>(l: Ledger<K, Option<C>>, op: TimerOp<K, Option<C>>, now: int, e: Entry<K, Option<C>>)
    requires Valid(l.set_) && KnownKeys(l) && e.key in l.kinds
    requires Live(l.set_, e.key) == Some(e) && !Tie(l.set_.order, e.next)
    ensures var t' := Record(l, op, now).set_;
            Valid(t') && Live(t', e.key) == if op == OpCancel(e.key) then None else Some(e)
  {
    hide Add, Cancel, Sweep, Live, Valid, Tie;
    match op {
      case OpAdd(c, ms, recurring, cb) =>
        if c !in l.kinds {
          AddLive(l.set_, Entry(c, now + ms, ms, recurring, cb), e.key);
        }
      case OpCancel(c) => CancelLive(l.set_, c, e.key);
      case OpRefresh(c) => RefreshLive(l.set_, c, now, e.key);
      case OpReset(c, ms, fromNow) => ResetLive(l.set_, c, ms, fromNow, now, e.key);
      case OpGetNext => GetNextLive(l.set_, now, e.key);
      case OpSweep => SweepLeavesIt(l.set_, now, e);
    }
  }

  lemma SweepLeavesIt<K, C>(t: TimerSet<K, C>, now: int, e: Entry<K, C>)
    requires Valid(t) && Live(t, e.key) == Some(e) && !Tie(t.order, e.next)
    ensures Valid(Sweep(t, now).0) && Live(Sweep(t, now).0, e.key) == Some(e)
  {
    SweepLive(t, now, e.key);
    var d := if Rollover(t, now) then |t.order| else DuePrefix(t.order, now);
    LiveMeans(t, e.key, e);
    assert forall i :: 0 <= i < d ==> t.order[..d][i] == t.order[i];
  }

  /** A timer without a callback stays without one. */
  lemma OneLeavesItDead<K(!new), C>(l: Ledger<K, Option<C>>, op: TimerOp<K, Option<C>>, now: int, k: K)
    requires Valid(l.set_) && KnownKeys(l) && k in l.kinds && Live(l.set_, k).None?
    ensures var t' := Record(l, op, now).set_; Valid(t') && Live(t', k).None?
  {
    hide Add, Cancel, Refresh, Reset, Sweep, Live, Valid;
    match op {
      case OpAdd(c, ms, recurring, cb) =>
        if c !in l.kinds {
          AddLive(l.set_, Entry(c, now + ms, ms, recurring, cb), k);
        }
      case OpCancel(c) => CancelLive(l.set_, c, k);
      case OpRefresh(c) => RefreshLive(l.set_, c, now, k);
      case OpReset(c, ms, fromNow) => ResetLive(l.set_, c, ms, fromNow, now, k);
      case OpGetNext => GetNextLive(l.set_, now, k);
      case OpSweep => SweepLive(l.set_, now, k);
    }
  }

  // ---------- everything the other threads do ----------

  lemma {:induction false} OthersLeaveItDead<K(!new), C>(l: Ledger<K, Option<C>>, run: Run<K, C>, k: K)
    requires Valid(l.set_) && KnownKeys(l) && k in l.kinds && Live(l.set_, k).None?
    ensures Valid(RecordAll(l, run).set_) && Live(RecordAll(l, run).set_, k).None?
    decreases |run|
  {
    hide Record, Valid, KnownKeys, Live;
    if run != [] {
      OneLeavesItDead(l, run[0].0, run[0].1, k);
      KeysStayKnown(l, run[0].0, run[0].1);
      OthersLeaveItDead(Record(l, run[0].0, run[0].1), run[1..], k);
    }
  }

  lemma {:induction false} OthersLeaveIt<K(!new), C>(l: Ledger<K, Option<C>>, run: Run<K, C>, e: Entry<K, Option<C>>)
    requires Valid(l.set_) && KnownKeys(l) && e.key in l.kinds
    requires Live(l.set_, e.key) == Some(e) && Vacant(l, run, e.next)
    ensures Valid(RecordAll(l, run).set_)
    ensures Live(RecordAll(l, run).set_, e.key) == if CancelsIn(run, e.key) then None else Some(e)
    ensures !CancelsIn(run, e.key) ==> !Tie(RecordAll(l, run).set_.order, e.next)
    decreases |run|
  {
    hide Record, Valid, KnownKeys, Live, Tie;
    if run != [] {
      var l1 := Record(l, run[0].0, run[0].1);
      OneLeavesIt(l, run[0].0, run[0].1, e);
      KeysStayKnown(l, run[0].0, run[0].1);
      CancelsInTail(run, e.key);
      if run[0].0 == OpCancel(e.key) {
        OthersLeaveItDead(l1, run[1..], e.key);
      } else {
        OthersLeaveIt(l1, run[1..], e);
      }
    }
  }

  lemma CancelsInTail<K, C>(run: Run<K, C>, k: K)
    requires run != []
    ensures CancelsIn(run, k) <==> run[0].0 == OpCancel(k) || CancelsIn(run[1..], k)
  {
    assert forall i :: 0 <= i < |run[1..]| ==> run[1..][i] == run[i + 1];
    assert forall i :: 1 <= i < |run| ==> run[i] == run[1..][i - 1];
  }

  // ---------- the whole reset ----------

  lemma OpenedIsLive<K(!new), C>(t: TimerSet<K, Option<C>>, k: K)
    requires Valid(t) && t.limbo == map[] && Live(t, k).Some?
    ensures Tie(t.order, Live(t, k).value.next) && Live(t, k).value.key == k
    ensures Valid(Opened(t, k)) && !Tie(Opened(t, k).order, Live(t, k).value.next)
    ensures forall c :: Live(Opened(t, k), c) == Live(t, c)
  {
    var e := Live(t, k).value;
    LiveKey(t, k);
    FindIsTheTimer(t, k);
    EraseFoundLive(t, e, k);
    forall c ensures Live(Opened(t, k), c) == Live(t, c) {
      EraseFoundLive(t, e, c);
      OpenedAdds(EraseFound(t, e), e, c);
    }
    OpenedAdds(EraseFound(t, e), e, k);
  }

  lemma OpenedAdds<K, C>(t: TimerSet<K, C>, e: Entry<K, C>, c: K)
    requires Valid(t) && Live(t, e.key).None?
    ensures var t' := t.(limbo := t.limbo[e.key := e]);
            Valid(t') && Live(t', c) == if c == e.key then Some(e) else Live(t, c)
  {
  }

  /** Whatever other threads do between the two halves of reset(), short of putting a timer at the old deadline: the
      timer that goes back into the set has a callback iff none of them cancelled it. */
  lemma ResetInHalves<K(!new), C>(l: Ledger<K, Option<C>>, k: K, run: Run<K, C>, ms: nat, fromNow: bool, now: int)
    requires Valid(l.set_) && l.set_.limbo == map[] && KnownKeys(l) && k in l.kinds
    requires Live(l.set_, k).Some? && Live(l.set_, k).value.cb.Some?
    requires Vacant(l.(set_ := Opened(l.set_, k)), run, Live(l.set_, k).value.next)
    ensures var e := Live(l.set_, k).value;
            var t := Closed(RecordAll(l.(set_ := Opened(l.set_, k)), run).set_, e, ms, fromNow, now);
            && Valid(t) && Live(t, k).Some?
            && (Live(t, k).value.cb.Some? <==> !CancelsIn(run, k))
  {
    var e := Live(l.set_, k).value;
    OpenedIsLive(l.set_, k);
    assert KnownKeys(l.(set_ := Opened(l.set_, k)));
    hide Closed, Opened, RecordAll, Valid, Live, Vacant, Tie, CancelsIn;
    OthersLeaveIt(l.(set_ := Opened(l.set_, k)), run, e);
    ClosedIsLive(RecordAll(l.(set_ := Opened(l.set_, k)), run).set_, e, ms, fromNow, now);
  }

  lemma ClosedIsLive<K, C>(t: TimerSet<K, Option<C>>, e: Entry<K, Option<C>>, ms: nat, fromNow: bool, now: int)
    requires Valid(t) && (Live(t, e.key).Some? ==> Live(t, e.key) == Some(e) && !Tie(t.order, e.next))
    ensures var t' := Closed(t, e, ms, fromNow, now);
            && Valid(t')
            && Live(t', e.key) == Some(Moved(e, ms, fromNow, now).(cb := if Live(t, e.key).Some? then e.cb else None))
  {
    OutsideLeaves(t, e);
    hide Add, Valid, Live, Tie;
    var cb := if Live(t, e.key).Some? then e.cb else None;
    AddLive(t.(limbo := t.limbo - {e.key}), Moved(e, ms, fromNow, now).(cb := cb), e.key);
  }

  lemma OutsideLeaves<K, C>(t: TimerSet<K, C>, e: Entry<K, C>)
    requires Valid(t) && (Live(t, e.key).Some? ==> Live(t, e.key) == Some(e) && !Tie(t.order, e.next))
    ensures var t' := t.(limbo := t.limbo - {e.key}); Valid(t') && Live(t', e.key).None?
  {
    if Live(t, e.key).Some? {
      LiveMeans(t, e.key, e);
    }
  }

  // ---------- what a null callback in the set does ----------

  /** cancel, refresh and reset look at the callback first, so on a null one they change nothing. */
  function RecordNull<K(==), C>(l: Ledger<K, Option<C>>, op: TimerOp<K, Option<C>>, now: int): Ledger<K, Option<C>> {
    if (op.OpCancel? || op.OpRefresh? || op.OpReset?) && IsNull(Live(l.set_, op.key)) then l else Record(l, op, now)
  }

  predicate IsNull<K, C>(e: Option<Entry<K, Option<C>>>) {
    e.Some? && e.value.cb.None?
  }

  function RecordAllNull<K(==), C>(l: Ledger<K, Option<C>>, run: Run<K, C>): Ledger<K, Option<C>>
    decreases |run|
  {
    if run == [] then l else RecordAllNull(RecordNull(l, run[0].0, run[0].1), run[1..])
  }

  ghost predicate RecurringNull<K, C>(t: TimerSet<K, Option<C>>, k: K) {
    IsNull(Live(t, k)) && Live(t, k).value.recurring
  }

  lemma NullStaysOnce<K(!new), C>(l: Ledger<K, Option<C>>, op: TimerOp<K, Option<C>>, now: int, k: K)
    requires Valid(l.set_) && KnownKeys(l) && k in l.kinds && RecurringNull(l.set_, k)
    ensures var l' := RecordNull(l, op, now);
            Valid(l'.set_) && KnownKeys(l') && k in l'.kinds && RecurringNull(l'.set_, k)
  {
    hide Add, Cancel, Refresh, Reset, Sweep, Live, Valid, KnownKeys, GetNext, DistinctKeys, FindKey;
    KeysStayKnown(l, op, now);
    match op {
      case OpAdd(c, ms, recurring, cb) =>
        if c !in l.kinds {
          NewKeyIsDead(l, c);
          AddLive(l.set_, Entry(c, now + ms, ms, recurring, cb), k);
        }
      case OpCancel(c) => CancelLive(l.set_, c, k);
      case OpRefresh(c) => RefreshLive(l.set_, c, now, k);
      case OpReset(c, ms, fromNow) => ResetLive(l.set_, c, ms, fromNow, now, k);
      case OpGetNext => GetNextLive(l.set_, now, k);
      case OpSweep => SweepLive(l.set_, now, k);
    }
  }

  /** A recurring timer that came back with a null callback never leaves: after any run of the interface in which no
      deadline was taken twice it is in the set, so there is a next timer and stopping() answers no. */
  lemma {:induction false} RecurringNullStays<K(!new), C>(l: Ledger<K, Option<C>>, run: Run<K, C>, k: K, now: int)
    requires Valid(l.set_) && KnownKeys(l) && k in l.kinds && RecurringNull(l.set_, k)
    ensures var t := RecordAllNull(l, run).set_;
            RecurringNull(t, k) && (t.limbo == map[] ==> GetNext(t, now).1.Some?)
    decreases |run|
  {
    if run == [] {
      InTheSet(l.set_, k);
    } else {
      hide RecordNull, Valid, KnownKeys, RecurringNull, GetNext;
      NullStaysOnce(l, run[0].0, run[0].1, k);
      RecurringNullStays(RecordNull(l, run[0].0, run[0].1), run[1..], k, now);
    }
  }

  lemma InTheSet<K, C>(t: TimerSet<K, C>, k: K)
    requires Live(t, k).Some?
    ensures t.limbo == map[] ==> t.order != []
  {
  }
}
