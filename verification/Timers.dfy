// The timer set of TimerManager as a value: a std::set ordered by deadline only, so that two timers
// with one deadline are the same element to insert, find and erase.

module Timers {
  import opened Base

  /** A timer whose callback is non-null. */
  datatype Entry<K, C> = Entry(key: K, next: int, ms: nat, recurring: bool, cb: C)

  /** `order` is m_timers. `limbo` holds the timers that have a callback but are not in m_timers, which
      happens only after a tie. `seen` is a history variable: the earliest deadline at the last
      getNextTimer, None when there was none. */
  datatype TimerSet<K, C> = TimerSet(
    order: seq<Entry<K, C>>,
    limbo: map<K, Entry<K, C>>,
    tickled: bool,
    previous: int,
    seen: Option<int>)

  function EmptySet<K, C>(now: int): TimerSet<K, C> {
    TimerSet([], map[], false, now, None)
  }

  ghost predicate Sorted<K, C>(es: seq<Entry<K, C>>) {
    forall i, j :: 0 <= i < j < |es| ==> es[i].next < es[j].next
  }

  // ---------- the operations of std::set under Timer::Comparator ----------

  /** The position of the element with this deadline, None for end(). */
  function Find<K, C>(es: seq<Entry<K, C>>, next: int): (r: Option<nat>)
    ensures r.Some? ==> r.value < |es| && es[r.value].next == next
    ensures r.None? ==> forall i :: 0 <= i < |es| ==> es[i].next != next
  {
    if es == [] then None
    else if es[0].next == next then Some(0)
    else
      var r := Find(es[1..], next);
      assert r.None? ==> forall i :: 0 < i < |es| ==> es[i] == es[1..][i - 1];
      if r.Some? then Some(r.value + 1) else None
  }

  function Insert<K, C>(es: seq<Entry<K, C>>, e: Entry<K, C>): seq<Entry<K, C>> {
    if es == [] || e.next < es[0].next then [e] + es
    else if e.next == es[0].next then es
    else [es[0]] + Insert(es[1..], e)
  }

  function EraseAt<K, C>(es: seq<Entry<K, C>>, i: nat): seq<Entry<K, C>>
    requires i < |es|
  {
    es[..i] + es[i + 1..]
  }

  predicate Tie<K, C>(es: seq<Entry<K, C>>, next: int) {
    Find(es, next).Some?
  }

  /** m_timers.insert(timer): on a tie the set keeps the timer it has and the new one stays outside. */
  function InsertOrDrop<K(==), C>(t: TimerSet<K, C>, e: Entry<K, C>): TimerSet<K, C> {
    if Tie(t.order, e.next) then t.(limbo := t.limbo[e.key := e])
    else t.(order := Insert(t.order, e))
  }

  function FindKey<K(==), C>(es: seq<Entry<K, C>>, k: K): (r: Option<nat>)
    ensures r.Some? ==> r.value < |es| && es[r.value].key == k
    ensures r.None? ==> forall i :: 0 <= i < |es| ==> es[i].key != k
  {
    if es == [] then None
    else if es[0].key == k then Some(0)
    else
      var r := FindKey(es[1..], k);
      assert r.None? ==> forall i :: 0 < i < |es| ==> es[i] == es[1..][i - 1];
      if r.Some? then Some(r.value + 1) else None
  }

  /** The timer k when its callback is non-null. */
  function Live<K(==), C>(t: TimerSet<K, C>, k: K): Option<Entry<K, C>> {
    match FindKey(t.order, k)
    case Some(i) => Some(t.order[i])
    case None => if k in t.limbo then Some(t.limbo[k]) else None
  }

  /** erase(find(e)): the element at e's deadline leaves the set. When that is another timer, it
      still has its callback; e itself is no longer outside the set. */
  function EraseFound<K(==), C>(t: TimerSet<K, C>, e: Entry<K, C>): TimerSet<K, C>
    requires Tie(t.order, e.next)
  {
    var i := Find(t.order, e.next).value;
    var victim := t.order[i];
    var limbo := t.limbo - {e.key};
    t.(order := EraseAt(t.order, i), limbo := if victim.key == e.key then limbo else limbo[victim.key := victim])
  }

  // ---------- the operations of Timer and TimerManager ----------

  /** addTimer(timer): insert, and note a new front once until the next getNextTimer. */
  function Add<K(==), C>(t: TimerSet<K, C>, e: Entry<K, C>): TimerSet<K, C> {
    var t' := InsertOrDrop(t, e);
    t'.(tickled := t.tickled || AtFront(t', e.next))
  }

  /** The iterator returned by insert is begin(). */
  predicate AtFront<K, C>(t: TimerSet<K, C>, next: int) {
    t.order != [] && t.order[0].next == next
  }

  function Cancel<K(==), C>(t: TimerSet<K, C>, k: K): (TimerSet<K, C>, bool) {
    match Live(t, k)
    case None => (t, false)
    case Some(e) =>
      if Tie(t.order, e.next) then (EraseFound(t, e), true)
      else (t.(limbo := t.limbo - {k}), true)
  }

  function Refresh<K(==), C>(t: TimerSet<K, C>, k: K, now: int): (TimerSet<K, C>, bool) {
    match Live(t, k)
    case None => (t, false)
    case Some(e) =>
      if !Tie(t.order, e.next) then (t, false)
      else (InsertOrDrop(EraseFound(t, e), e.(next := now + e.ms)), true)
  }

  /** Where reset(ms, from_now) takes a timer: the period it has, started at its own start, is where it is. */
  function Moved<K, C>(e: Entry<K, C>, ms: nat, fromNow: bool, now: int): Entry<K, C> {
    e.(next := (if fromNow then now else e.next - e.ms) + ms, ms := ms)
  }

  /** reset(ms, from_now) of a timer that has a callback, or whose period differs from `ms`. */
  function Reset<K(==), C>(t: TimerSet<K, C>, k: K, ms: nat, fromNow: bool, now: int): (TimerSet<K, C>, bool) {
    match Live(t, k)
    case None => (t, false)
    case Some(e) =>
      if ms == e.ms && !fromNow then (t, true)
      else if !Tie(t.order, e.next) then (t, false)
      else
        (Add(EraseFound(t, e), Moved(e, ms, fromNow, now)), true)
  }

  /** getNextTimer: None is ~0ull. */
  function GetNext<K, C>(t: TimerSet<K, C>, now: int): (TimerSet<K, C>, Option<nat>) {
    if t.order == [] then (t.(tickled := false, seen := None), None)
    else
      var next := t.order[0].next;
      (t.(tickled := false, seen := Some(next)), Some(if now >= next then 0 else next - now))
  }

  const Hour: int := 60 * 60 * 1000

  predicate Rollover<K, C>(t: TimerSet<K, C>, now: int) {
    now < t.previous - Hour
  }

  /** How many timers, from the front, are due at `now`. */
  function DuePrefix<K, C>(es: seq<Entry<K, C>>, now: int): (d: nat)
    ensures d <= |es|
  {
    if es == [] || es[0].next > now then 0 else 1 + DuePrefix(es[1..], now)
  }

  /** Puts the recurring ones among `es` back, one after the other, each a period after `now`. */
  function Rearm<K(==), C>(t: TimerSet<K, C>, es: seq<Entry<K, C>>, now: int): TimerSet<K, C>
    decreases |es|
  {
    if es == [] then t else Rearm(RearmOne(t, es[0], now), es[1..], now)
  }

  function RearmOne<K(==), C>(t: TimerSet<K, C>, e: Entry<K, C>, now: int): TimerSet<K, C> {
    if e.recurring then InsertOrDrop(t, e.(next := now + e.ms)) else t
  }

  /** listExpiredCb at `now`: the timers handed out, and the set afterwards. */
  function Sweep<K(==), C>(t: TimerSet<K, C>, now: int): (TimerSet<K, C>, seq<Entry<K, C>>) {
    var d := if Rollover(t, now) then |t.order| else DuePrefix(t.order, now);
    (Rearm(t.(order := t.order[d..], previous := now), t.order[..d], now), t.order[..d])
  }

  /** The loop of listExpiredCb ends: a recurring timer that is handed out is not due again at once. */
  predicate SweepEnds<K, C>(t: TimerSet<K, C>, now: int) {
    if Rollover(t, now) then forall i :: 0 <= i < |t.order| ==> !t.order[i].recurring
    else forall i :: 0 <= i < |t.order| && t.order[i].next <= now && t.order[i].recurring ==> t.order[i].ms > 0
  }

  // ---------- the set operations keep the order and lose nothing but ties ----------

  lemma {:induction false} InsertSorted<K, C>(es: seq<Entry<K, C>>, e: Entry<K, C>)
    requires Sorted(es)
    ensures Sorted(Insert(es, e))
    ensures forall x :: x in Insert(es, e) <==> x in es || (x == e && !Tie(es, e.next))
    ensures forall i :: 0 <= i < |Insert(es, e)| ==>
              Insert(es, e)[i] == e || exists j :: 0 <= j < |es| && es[j] == Insert(es, e)[i]
    ensures Insert(es, e) != []
    ensures Insert(es, e)[0].next == if es == [] || e.next < es[0].next then e.next else es[0].next
  {
    if es == [] || e.next < es[0].next {
    } else if e.next == es[0].next {
    } else {
      InsertSorted(es[1..], e);
      var r := Insert(es[1..], e);
      assert es == [es[0]] + es[1..];
      forall i, j | 0 <= i < j < |[es[0]] + r| ensures ([es[0]] + r)[i].next < ([es[0]] + r)[j].next {
        if i == 0 {
          assert r[j - 1] in r;
        }
      }
    }
  }

  lemma {:induction false} InsertSum<K, C>(es: seq<Entry<K, C>>, e: Entry<K, C>, w: Entry<K, C> -> nat)
    requires Sorted(es)
    ensures Sum(Insert(es, e), w) == Sum(es, w) + if Tie(es, e.next) then 0 else w(e)
  {
    if es == [] || e.next < es[0].next {
      SumAppend([e], es, w);
      assert Sum([e], w) == w(e) + Sum([], w);
    } else if e.next == es[0].next {
    } else {
      InsertSum(es[1..], e, w);
      assert ([es[0]] + Insert(es[1..], e))[1..] == Insert(es[1..], e);
      TieTail(es, e.next);
    }
  }

  lemma TieTail<K, C>(es: seq<Entry<K, C>>, next: int)
    requires es != [] && es[0].next != next
    ensures Tie(es, next) <==> Tie(es[1..], next)
  {
  }

  lemma EraseSorted<K, C>(es: seq<Entry<K, C>>, i: nat)
    requires Sorted(es) && i < |es|
    ensures Sorted(EraseAt(es, i))
    ensures forall x :: x in EraseAt(es, i) <==> x in es && x != es[i]
    ensures forall j :: 0 <= j < |EraseAt(es, i)| ==> EraseAt(es, i)[j].next != es[i].next
  {
    var r := EraseAt(es, i);
    assert forall j :: 0 <= j < |r| ==> r[j] == if j < i then es[j] else es[j + 1];
    forall x | x in es && x != es[i] ensures x in r {
      var j :| 0 <= j < |es| && es[j] == x;
      assert r[if j < i then j else j - 1] == x;
    }
  }

  lemma {:induction false} DuePrefixIsDue<K, C>(es: seq<Entry<K, C>>, now: int)
    requires Sorted(es)
    ensures forall i :: 0 <= i < |es| ==> (es[i].next <= now <==> i < DuePrefix(es, now))
  {
    if es != [] && es[0].next <= now {
      DuePrefixIsDue(es[1..], now);
      assert forall i :: 0 < i < |es| ==> es[i] == es[1..][i - 1];
    }
  }

  // ---------- what every operation keeps ----------

  /** The set is ordered, and a timer with a callback is in exactly one place. */
  ghost predicate Valid<K, C>(t: TimerSet<K, C>) {
    && Sorted(t.order)
    && (forall i, j :: 0 <= i < j < |t.order| ==> t.order[i].key != t.order[j].key)
    && (forall i :: 0 <= i < |t.order| ==> t.order[i].key !in t.limbo)
    && (forall k :: k in t.limbo ==> t.limbo[k].key == k)
  }

  lemma LiveMeans<K, C>(t: TimerSet<K, C>, k: K, e: Entry<K, C>)
    requires Valid(t)
    ensures Live(t, k) == Some(e) <==> (e in t.order && e.key == k) || (k in t.limbo && t.limbo[k] == e)
  {
  }

  lemma LiveKey<K, C>(t: TimerSet<K, C>, k: K)
    requires Valid(t) && Live(t, k).Some?
    ensures Live(t, k).value.key == k
  {
    LiveMeans(t, k, Live(t, k).value);
  }

  lemma InsertOrDropLive<K, C>(t: TimerSet<K, C>, e: Entry<K, C>, k: K)
    requires Valid(t) && Live(t, e.key).None?
    ensures var t' := InsertOrDrop(t, e);
            Valid(t') && Live(t', k) == if k == e.key then Some(e) else Live(t, k)
  {
    var t' := InsertOrDrop(t, e);
    InsertOrDropMembers(t, e);
    hide InsertOrDrop, Valid, Live;
    if k == e.key {
      LiveMeans(t', k, e);
    } else if Live(t, k).Some? {
      LiveMeans(t, k, Live(t, k).value);
      LiveMeans(t', k, Live(t, k).value);
    } else if Live(t', k).Some? {
      LiveMeans(t', k, Live(t', k).value);
      LiveMeans(t, k, Live(t', k).value);
    }
  }

  lemma InsertOrDropMembers<K, C>(t: TimerSet<K, C>, e: Entry<K, C>)
    requires Valid(t) && Live(t, e.key).None?
    ensures var t' := InsertOrDrop(t, e);
            && Valid(t')
            && (forall x :: x in t'.order || (x.key in t'.limbo && t'.limbo[x.key] == x)
                 <==> x == e || x in t.order || (x.key in t.limbo && t.limbo[x.key] == x))
  {
    hide Insert, Tie;
    InsertSorted(t.order, e);
    var t' := InsertOrDrop(t, e);
    if !Tie(t.order, e.next) {
      InsertKeys(t.order, e);
      forall i | 0 <= i < |t'.order| ensures t'.order[i].key !in t'.limbo {
        var x := t'.order[i];
        if x != e {
          var j :| 0 <= j < |t.order| && t.order[j] == x;
        }
      }
    }
  }

  lemma {:induction false} InsertKeys<K, C>(es: seq<Entry<K, C>>, e: Entry<K, C>)
    requires Sorted(es) && (forall i, j :: 0 <= i < j < |es| ==> es[i].key != es[j].key)
    requires forall i :: 0 <= i < |es| ==> es[i].key != e.key
    ensures var r := Insert(es, e); forall i, j :: 0 <= i < j < |r| ==> r[i].key != r[j].key
  {
    if es != [] && e.next > es[0].next {
      InsertKeys(es[1..], e);
      InsertSorted(es[1..], e);
      var rest := Insert(es[1..], e);
      forall j | 0 <= j < |rest| ensures rest[j].key != es[0].key {
        var x := rest[j];
        if x != e {
          var i :| 0 <= i < |es[1..]| && es[1..][i] == x;
          assert es[i + 1] == x;
        }
      }
    }
  }

  /** The other keys stay distinct, and the key of the erased element is not among them. */
  lemma EraseKeys<K, C>(es: seq<Entry<K, C>>, i: nat)
    requires DistinctKeys(es) && i < |es|
    ensures DistinctKeys(EraseAt(es, i))
    ensures forall j :: 0 <= j < |EraseAt(es, i)| ==> EraseAt(es, i)[j] in es && EraseAt(es, i)[j].key != es[i].key
  {
    var r := EraseAt(es, i);
    assert forall j :: 0 <= j < |r| ==> r[j] == if j < i then es[j] else es[j + 1];
  }

  lemma EraseFoundValid<K, C>(t: TimerSet<K, C>, e: Entry<K, C>)
    requires Valid(t) && Live(t, e.key) == Some(e) && Tie(t.order, e.next)
    ensures var t' := EraseFound(t, e); Valid(t') && !Tie(t'.order, e.next)
  {
    var i := Find(t.order, e.next).value;
    var t' := EraseFound(t, e);
    EraseSorted(t.order, i);
    EraseKeys(t.order, i);
    hide EraseAt, Sorted;
    forall j | 0 <= j < |t'.order| ensures t'.order[j].key !in t.limbo {
      assert t'.order[j] in t.order;
    }
  }

  lemma EraseFoundLive<K, C>(t: TimerSet<K, C>, e: Entry<K, C>, k: K)
    requires Valid(t) && Live(t, e.key) == Some(e) && Tie(t.order, e.next)
    ensures var t' := EraseFound(t, e);
            && Valid(t') && !Tie(t'.order, e.next)
            && Live(t', k) == if k == e.key then None else Live(t, k)
  {
    EraseFoundValid(t, e);
    hide Valid, Live, EraseFound, Tie;
    EraseFoundMembers(t, e, k);
  }

  lemma EraseFoundMembers<K, C>(t: TimerSet<K, C>, e: Entry<K, C>, k: K)
    requires Valid(t) && Live(t, e.key) == Some(e) && Tie(t.order, e.next) && Valid(EraseFound(t, e))
    ensures Live(EraseFound(t, e), k) == if k == e.key then None else Live(t, k)
  {
    var t' := EraseFound(t, e);
    EraseSorted(t.order, Find(t.order, e.next).value);
    LiveMeans(t, e.key, e);
    if Live(t', k).Some? {
      LiveMeans(t', k, Live(t', k).value);
      LiveMeans(t, k, Live(t', k).value);
    }
    if Live(t, k).Some? && k != e.key {
      LiveMeans(t, k, Live(t, k).value);
      LiveMeans(t', k, Live(t, k).value);
    }
  }

  ghost predicate DistinctKeys<K, C>(es: seq<Entry<K, C>>) {
    forall i, j :: 0 <= i < j < |es| ==> es[i].key != es[j].key
  }

  /** The timers of es are not live in t. */
  ghost predicate AllOut<K, C>(t: TimerSet<K, C>, es: seq<Entry<K, C>>) {
    forall i :: 0 <= i < |es| ==> Live(t, es[i].key).None?
  }

  /** Re-arming the first timer leaves the others outside. */
  lemma RearmHead<K, C>(t: TimerSet<K, C>, es: seq<Entry<K, C>>, now: int)
    requires Valid(t) && DistinctKeys(es) && AllOut(t, es) && es != []
    ensures var t1 := if es[0].recurring then InsertOrDrop(t, es[0].(next := now + es[0].ms)) else t;
            && Valid(t1) && DistinctKeys(es[1..])
            && AllOut(t1, es[1..]) && Rearm(t, es, now) == Rearm(t1, es[1..], now) && Live(t, es[0].key).None?
  {
    hide Valid, Live, InsertOrDrop;
    var e := es[0].(next := now + es[0].ms);
    InsertOrDropLive(t, e, e.key);
    forall i | 0 <= i < |es[1..]|
      ensures Live(t, es[1..][i].key).None? && (es[0].recurring ==> Live(InsertOrDrop(t, e), es[1..][i].key).None?)
    {
      assert es[1..][i] == es[i + 1];
      InsertOrDropLive(t, e, es[i + 1].key);
    }
  }

  /** What re-arming `es` makes of timer k: one of them goes back if it recurs, any other stays as it was. */
  function Rearmed<K(==), C>(es: seq<Entry<K, C>>, now: int, k: K, before: Option<Entry<K, C>>): Option<Entry<K, C>> {
    match FindKey(es, k)
    case Some(i) => if es[i].recurring then Some(es[i].(next := now + es[i].ms)) else None
    case None => before
  }

  lemma RearmedHead<K, C>(es: seq<Entry<K, C>>, now: int, k: K, before: Option<Entry<K, C>>)
    requires es != [] && DistinctKeys(es)
    ensures Rearmed(es, now, k, before) == Rearmed(es[1..], now, k,
                if es[0].key != k then before
                else if es[0].recurring then Some(es[0].(next := now + es[0].ms)) else None)
  {
    assert forall i :: 0 <= i < |es[1..]| ==> es[1..][i] == es[i + 1];
  }

  lemma {:induction false} RearmLive<K, C>(t: TimerSet<K, C>, es: seq<Entry<K, C>>, now: int, k: K)
    requires Valid(t) && DistinctKeys(es) && AllOut(t, es)
    ensures var t' := Rearm(t, es, now); Valid(t') && Live(t', k) == Rearmed(es, now, k, Live(t, k))
    decreases |es|
  {
    if es == [] {
      return;
    }
    hide AllOut, Valid, Live, InsertOrDrop, DistinctKeys, FindKey, Rearm, Rearmed;
    var e := es[0].(next := now + es[0].ms);
    var t1 := if es[0].recurring then InsertOrDrop(t, e) else t;
    RearmedHead(es, now, k, Live(t, k));
    RearmHead(t, es, now);
    RearmLive(t1, es[1..], now, k);
    InsertOrDropLive(t, e, k);
  }

  /** A prefix of the set leaves it. */
  lemma DropPrefixValid<K, C>(t: TimerSet<K, C>, d: nat, now: int)
    requires Valid(t) && d <= |t.order|
    ensures var t1 := t.(order := t.order[d..], previous := now);
            && Valid(t1) && DistinctKeys(t.order[..d])
            && AllOut(t1, t.order[..d])
            && forall i :: 0 <= i < d ==> t.order[..d][i] == t.order[i] && Live(t1, t.order[i].key).None?
  {
    var t1 := t.(order := t.order[d..], previous := now);
    forall i | 0 <= i < d ensures Live(t1, t.order[i].key).None? {
      assert forall j :: 0 <= j < |t1.order| ==> t1.order[j] == t.order[j + d];
    }
  }

  /** A sweep hands on the weight of what it takes out, when recurring timers weigh nothing. */
  lemma DropPrefixLive<K, C>(t: TimerSet<K, C>, d: nat, k: K)
    requires Valid(t) && d <= |t.order|
    ensures var t0 := t.(order := t.order[d..]);
            && Valid(t0) && DistinctKeys(t.order[..d])
            && Live(t0, k) == (if FindKey(t.order[..d], k).Some? then None else Live(t, k))
            && (match FindKey(t.order[..d], k) case Some(i) => Live(t, k) == Some(t.order[i]) case None => true)
  {
    var t0 := t.(order := t.order[d..]);
    DropPrefixValid(t, d, t.previous);
    assert t0 == t.(order := t.order[d..], previous := t.previous);
    assert t.order == t.order[..d] + t0.order;
    hide Valid, Live, DistinctKeys, FindKey;
    match FindKey(t.order[..d], k) {
      case Some(i) =>
        assert t.order[..d][i] == t.order[i];
        LiveMeans(t, k, t.order[i]);
      case None =>
        assert forall e :: e in t.order && e.key == k ==> e in t0.order;
        if Live(t, k).Some? {
          LiveMeans(t, k, Live(t, k).value);
          LiveMeans(t0, k, Live(t, k).value);
        } else if Live(t0, k).Some? {
          LiveMeans(t0, k, Live(t0, k).value);
          LiveMeans(t, k, Live(t0, k).value);
        }
    }
  }

  lemma LiveIgnoresPrevious<K, C>(t: TimerSet<K, C>, now: int, k: K)
    ensures Live(t.(previous := now), k) == Live(t, k)
  {
  }

  /** What one sweep does to each timer: one that is handed out loses its callback when it is one-shot and
      gets a deadline a period after `now` when it is recurring; every other timer stays as it was. */
  lemma SweepLive<K, C>(t: TimerSet<K, C>, now: int, k: K)
    requires Valid(t)
    ensures var (t', handed) := Sweep(t, now);
            && Valid(t') && DistinctKeys(handed)
            && (match FindKey(handed, k)
                case Some(i) => Live(t, k) == Some(handed[i])
                    && Live(t', k)
                       == (if handed[i].recurring then Some(handed[i].(next := now + handed[i].ms)) else None)
                case None => Live(t', k) == Live(t, k))
  {
    hide DistinctKeys, FindKey, Live, Rearm;
    var d := if Rollover(t, now) then |t.order| else DuePrefix(t.order, now);
    var t1 := t.(previous := now);
    var es := t.order[..d];
    forall i | 0 <= i < |es| ensures Live(t1.(order := t.order[d..]), es[i].key).None? {
      DropPrefixLive(t1, d, es[i].key);
    }
    DropPrefixLive(t1, d, k);
    assert t1.(order := t.order[d..]) == t.(order := t.order[d..], previous := now);
    assert Live(t1, k) == Live(t, k) by { LiveIgnoresPrevious(t, now, k); }
    hide Valid;
    RearmLive(t1.(order := t.order[d..]), es, now, k);
  }

  // ---------- one callback, one fate ----------

  /** A use of the timer interface at clock value `now`. */
  datatype TimerOp<K, C> =
    | OpAdd(key: K, ms: nat, recurring: bool, cb: C)
    | OpCancel(key: K)
    | OpRefresh(key: K)
    | OpReset(key: K, ms: nat, fromNow: bool)
    | OpGetNext
    | OpSweep

  /** The timer set with the log of what it handed out and of the cancels that returned true;
      `kinds` says of each timer created whether it recurs. */
  datatype Ledger<K, C> = Ledger(set_: TimerSet<K, C>, kinds: map<K, bool>, handed: seq<Entry<K, C>>, cancelled: seq<K>)

  function Record<K(==), C>(l: Ledger<K, C>, op: TimerOp<K, C>, now: int): Ledger<K, C> {
    match op
    case OpAdd(k, ms, recurring, cb) =>
      if k in l.kinds then l   // a timer object is added once, when addTimer creates it
      else l.(set_ := Add(l.set_, Entry(k, now + ms, ms, recurring, cb)), kinds := l.kinds[k := recurring])
    case OpCancel(k) =>
      var (t, ok) := Cancel(l.set_, k);
      l.(set_ := t, cancelled := if ok then l.cancelled + [k] else l.cancelled)
    case OpRefresh(k) => l.(set_ := Refresh(l.set_, k, now).0)
    case OpReset(k, ms, fromNow) => l.(set_ := Reset(l.set_, k, ms, fromNow, now).0)
    case OpGetNext => l.(set_ := GetNext(l.set_, now).0)
    case OpSweep =>
      var (t, handed) := Sweep(l.set_, now);
      l.(set_ := t, handed := l.handed + handed)
  }

  /** A whole run: each operation with the clock value it reads. The clock may move in any way. */
  function RecordAll<K(==), C>(l: Ledger<K, C>, run: seq<(TimerOp<K, C>, int)>): Ledger<K, C>
    decreases |run|
  {
    if run == [] then l else RecordAll(Record(l, run[0].0, run[0].1), run[1..])
  }

  function HasKey<K(==), C>(k: K): Entry<K, C> -> nat {
    (e: Entry<K, C>) => if e.key == k then 1 else 0
  }

  function Same<K(==)>(k: K): K -> nat {
    (x: K) => if x == k then 1 else 0
  }

  /** How often the callback of k was handed out, how often cancelling k returned true, and whether k
      still has its callback. */
  ghost function Fired<K, C>(l: Ledger<K, C>, k: K): nat {
    Sum(l.handed, HasKey(k))
  }

  ghost function Cancels<K, C>(l: Ledger<K, C>, k: K): nat {
    Sum(l.cancelled, Same(k))
  }

  ghost function Pending<K, C>(l: Ledger<K, C>, k: K): nat {
    if Live(l.set_, k).Some? then 1 else 0
  }

  ghost predicate Balanced<K, C>(l: Ledger<K, C>, k: K) {
    && Valid(l.set_)
    && (k !in l.kinds ==> Pending(l, k) == 0 && Fired(l, k) == 0 && Cancels(l, k) == 0)
    && (k in l.kinds && !l.kinds[k] ==> Pending(l, k) + Fired(l, k) + Cancels(l, k) == 1)
    && (k in l.kinds && l.kinds[k] ==> Pending(l, k) + Cancels(l, k) == 1)
    && (Live(l.set_, k).Some? ==> k in l.kinds && Live(l.set_, k).value.recurring == l.kinds[k])
  }

  lemma AddLive<K, C>(t: TimerSet<K, C>, e: Entry<K, C>, k: K)
    requires Valid(t) && Live(t, e.key).None?
    ensures Valid(Add(t, e)) && Live(Add(t, e), k) == if k == e.key then Some(e) else Live(t, k)
  {
    InsertOrDropLive(t, e, k);
    var t' := InsertOrDrop(t, e);
    assert Add(t, e) == t'.(tickled := t.tickled || AtFront(t', e.next));
  }

  lemma CancelLive<K, C>(t: TimerSet<K, C>, c: K, k: K)
    requires Valid(t)
    ensures var (t', ok) := Cancel(t, c);
            && Valid(t') && (ok <==> Live(t, c).Some?)
            && Live(t', k) == if k == c then None else Live(t, k)
  {
    if Live(t, c).Some? {
      var e := Live(t, c).value;
      LiveMeans(t, c, e);
      if Tie(t.order, e.next) {
        EraseFoundLive(t, e, k);
      }
    }
  }

  lemma RefreshLive<K, C>(t: TimerSet<K, C>, c: K, now: int, k: K)
    requires Valid(t)
    ensures var (t', ok) := Refresh(t, c, now);
            && Valid(t') && (ok ==> Live(t, c).Some?)
            && Live(t', k)
               == if ok && k == c then Some(Live(t, c).value.(next := now + Live(t, c).value.ms)) else Live(t, k)
  {
    hide Tie, Live, EraseFound, InsertOrDrop, Valid;
    if Live(t, c).Some? && Tie(t.order, Live(t, c).value.next) {
      var e := Live(t, c).value;
      LiveKey(t, c);
      EraseFoundLive(t, e, c);
      EraseFoundLive(t, e, k);
      InsertOrDropLive(EraseFound(t, e), e.(next := now + e.ms), k);
    }
  }

  lemma ResetLive<K, C>(t: TimerSet<K, C>, c: K, ms: nat, fromNow: bool, now: int, k: K)
    requires Valid(t)
    ensures var (t', ok) := Reset(t, c, ms, fromNow, now);
            && Valid(t') && (ok ==> Live(t, c).Some?)
            && Live(t', k) == if ok && k == c then Some(Moved(Live(t, c).value, ms, fromNow, now)) else Live(t, k)
  {
    hide Tie, Live, EraseFound, Add, Valid;
    if Live(t, c).Some? && Tie(t.order, Live(t, c).value.next) {
      var e := Live(t, c).value;
      LiveKey(t, c);
      EraseFoundLive(t, e, c);
      EraseFoundLive(t, e, k);
      AddLive(EraseFound(t, e), Moved(e, ms, fromNow, now), k);
    }
  }

  /** getNextTimer answers none iff the set is empty, 0 iff some deadline has come, and otherwise the time to a deadline
      before which there is no other. It takes the wake-up mark away and leaves every timer where it is. */
  lemma NextIsEarliest<K, C>(t: TimerSet<K, C>, now: int)
    requires Sorted(t.order)
    ensures var (t', r) := GetNext(t, now);
            && (r.None? <==> t.order == [])
            && (r == Some(0) <==> exists i :: 0 <= i < |t.order| && t.order[i].next <= now)
            && (r.Some? && r.value > 0 ==>
                  && (exists i :: 0 <= i < |t.order| && t.order[i].next == now + r.value)
                  && (forall i :: 0 <= i < |t.order| ==> now + r.value <= t.order[i].next))
            && !t'.tickled && t'.order == t.order && t'.limbo == t.limbo && t'.previous == t.previous
  {
    if t.order != [] {
      var first := t.order[0].next;
      assert forall i :: 0 <= i < |t.order| ==> first <= t.order[i].next;
      if first > now {
        assert t.order[0].next == now + GetNext(t, now).1.value;
      }
    }
  }

  lemma GetNextLive<K, C>(t: TimerSet<K, C>, now: int, k: K)
    requires Valid(t)
    ensures Valid(GetNext(t, now).0) && Live(GetNext(t, now).0, k) == Live(t, k)
  {
  }

  lemma {:induction false} HasKeySum<K, C>(es: seq<Entry<K, C>>, k: K)
    requires DistinctKeys(es)
    ensures Sum(es, HasKey(k)) == if FindKey(es, k).Some? then 1 else 0
  {
    if es != [] {
      HasKeySum(es[1..], k);
      assert forall i :: 0 <= i < |es[1..]| ==> es[1..][i] == es[i + 1];
    }
  }

  lemma RecordKeepsBalance<K, C>(l: Ledger<K, C>, op: TimerOp<K, C>, now: int, k: K)
    requires Balanced(l, k)
    requires op.OpAdd? ==> Balanced(l, op.key)
    ensures Balanced(Record(l, op, now), k)
  {
    hide Add, Cancel, Refresh, Reset, GetNext, Sweep, Live, Valid;
    match op {
      case OpAdd(c, ms, recurring, cb) =>
        if c !in l.kinds {
          AddLive(l.set_, Entry(c, now + ms, ms, recurring, cb), k);
        }
      case OpCancel(c) =>
        CancelLive(l.set_, c, k);
        SumPush(l.cancelled, c, Same(k));
      case OpRefresh(c) => RefreshLive(l.set_, c, now, k);
      case OpReset(c, ms, fromNow) => ResetLive(l.set_, c, ms, fromNow, now, k);
      case OpGetNext => GetNextLive(l.set_, now, k);
      case OpSweep =>
        SweepLive(l.set_, now, k);
        var handed := Sweep(l.set_, now).1;
        SumAppend(l.handed, handed, HasKey(k));
        HasKeySum(handed, k);
    }
  }

  /** Over every run of add, cancel, refresh, reset and sweep, with or without ties and whatever the
      clock does: a one-shot timer still has its callback, or it was handed out once, or it was
      cancelled once, and only one of these; a recurring one has its callback until its one cancel. */
  lemma {:induction false} OneFate<K, C>(l: Ledger<K, C>, run: seq<(TimerOp<K, C>, int)>, k: K)
    requires Valid(l.set_) && Balanced(l, k)
    requires forall i :: 0 <= i < |run| && run[i].0.OpAdd? ==> Balanced(l, run[i].0.key)
    ensures Balanced(RecordAll(l, run), k)
    decreases |run|
  {
    if run != [] {
      var l1 := Record(l, run[0].0, run[0].1);
      RecordKeepsBalance(l, run[0].0, run[0].1, k);
      forall i | 0 <= i < |run[1..]| && run[1..][i].0.OpAdd? ensures Balanced(l1, run[1..][i].0.key) {
        assert run[1..][i] == run[i + 1];
        RecordKeepsBalance(l, run[0].0, run[0].1, run[i + 1].0.key);
      }
      OneFate(l1, run[1..], k);
    }
  }

  function FreshLedger<K, C>(now: int): Ledger<K, C> {
    Ledger(EmptySet(now), map[], [], [])
  }

  /** The same from the start: a one-shot callback is handed out at most once, cancel returns true at
      most once, and one excludes the other. */
  lemma OneFateFromStart<K, C>(start: int, run: seq<(TimerOp<K, C>, int)>, k: K)
    ensures var l := RecordAll(FreshLedger<K, C>(start), run);
            && Balanced(l, k)
            && Cancels(l, k) <= 1
            && (k in l.kinds && !l.kinds[k] ==> Fired(l, k) + Cancels(l, k) <= 1)
            && (k in l.kinds && !l.kinds[k] ==> (Live(l.set_, k).None? <==> Fired(l, k) + Cancels(l, k) == 1))
  {
    OneFate(FreshLedger<K, C>(start), run, k);
  }

  // ---------- distinct deadlines ----------

  /** With no timer outside the set, a timer with a callback is in it and find by deadline returns
      that timer itself. */
  lemma FindIsTheTimer<K, C>(t: TimerSet<K, C>, k: K)
    requires Valid(t) && t.limbo == map[] && Live(t, k).Some?
    ensures var e := Live(t, k).value; Tie(t.order, e.next) && t.order[Find(t.order, e.next).value] == e
  {
  }

  /** An insertion leaves every timer with a callback inside the set iff its deadline is not taken. */
  lemma AddLeavesNoneOut<K, C>(t: TimerSet<K, C>, e: Entry<K, C>)
    requires Valid(t) && t.limbo == map[]
    ensures Add(t, e).limbo == map[] <==> !Tie(t.order, e.next)
    ensures !Tie(t.order, e.next) ==> Add(t, e).order == Insert(t.order, e)
  {
    if Tie(t.order, e.next) {
      assert e.key in Add(t, e).limbo;
    }
  }

  /** No other timer than k has this deadline. */
  predicate Free<K(==), C>(es: seq<Entry<K, C>>, k: K, next: int) {
    forall i :: 0 <= i < |es| && es[i].next == next ==> es[i].key == k
  }

  /** When no timer is left out, erasing one makes room for exactly the deadlines no other timer has. */
  lemma EraseFoundFrees<K, C>(t: TimerSet<K, C>, e: Entry<K, C>, next: int)
    requires Valid(t) && t.limbo == map[] && Live(t, e.key) == Some(e)
    ensures Tie(t.order, e.next) && EraseFound(t, e).limbo == map[]
    ensures Tie(EraseFound(t, e).order, next) <==> !Free(t.order, e.key, next)
  {
    hide Find;
    FindIsTheTimer(t, e.key);
    var i := Find(t.order, e.next).value;
    var r := EraseFound(t, e).order;
    assert forall j :: 0 <= j < |r| ==> r[j] == if j < i then t.order[j] else t.order[j + 1];
    if j :| 0 <= j < |t.order| && t.order[j].next == next && t.order[j].key != e.key {
      assert r[if j < i then j else j - 1].next == next;
    }
  }

  lemma CancelLeavesNoneOut<K, C>(t: TimerSet<K, C>, k: K)
    requires Valid(t) && t.limbo == map[]
    ensures Cancel(t, k).0.limbo == map[]
  {
    if Live(t, k).Some? {
      LiveKey(t, k);
      EraseFoundFrees(t, Live(t, k).value, 0);
    }
  }

  /** refresh leaves every timer with a callback inside the set iff no other timer has the new deadline. */
  lemma RefreshLeavesNoneOut<K, C>(t: TimerSet<K, C>, k: K, now: int)
    requires Valid(t) && t.limbo == map[]
    ensures Refresh(t, k, now).0.limbo == map[] <==> Live(t, k).Some? ==> Free(t.order, k, now + Live(t, k).value.ms)
  {
    if Live(t, k).Some? {
      var e := Live(t, k).value;
      LiveKey(t, k);
      EraseFoundFrees(t, e, now + e.ms);
    }
  }

  /** So does reset, when it moves the timer at all. */
  lemma ResetLeavesNoneOut<K, C>(t: TimerSet<K, C>, k: K, ms: nat, fromNow: bool, now: int)
    requires Valid(t) && t.limbo == map[]
    ensures Reset(t, k, ms, fromNow, now).0.limbo == map[] <==>
            Live(t, k).Some? ==>
              var e := Live(t, k).value; (ms == e.ms && !fromNow) || Free(t.order, k, Moved(e, ms, fromNow, now).next)
  {
    if Live(t, k).Some? {
      var e := Live(t, k).value;
      LiveKey(t, k);
      EraseFoundFrees(t, e, Moved(e, ms, fromNow, now).next);
    }
  }

  /** A tie costs the new timer its place: the weight of the set grows by that of the timer iff there is none. */
  lemma AddSum<K, C>(t: TimerSet<K, C>, e: Entry<K, C>, w: Entry<K, C> -> nat)
    requires Valid(t)
    ensures Sum(Add(t, e).order, w) == Sum(t.order, w) + if Tie(t.order, e.next) then 0 else w(e)
  {
    InsertSum(t.order, e, w);
  }

  lemma EraseFoundSum<K, C>(t: TimerSet<K, C>, e: Entry<K, C>, w: Entry<K, C> -> nat)
    requires Valid(t) && t.limbo == map[] && Live(t, e.key) == Some(e)
    ensures Tie(t.order, e.next) && EraseFound(t, e).limbo == map[]
    ensures Sum(EraseFound(t, e).order, w) + w(e) == Sum(t.order, w)
  {
    FindIsTheTimer(t, e.key);
    SumRemove(t.order, Find(t.order, e.next).value, w);
  }

  lemma CancelSum<K, C>(t: TimerSet<K, C>, k: K, w: Entry<K, C> -> nat)
    requires Valid(t) && t.limbo == map[]
    ensures Cancel(t, k).0.limbo == map[]
    ensures Sum(Cancel(t, k).0.order, w) + (if Live(t, k).Some? then w(Live(t, k).value) else 0) == Sum(t.order, w)
  {
    if Live(t, k).Some? {
      EraseFoundSum(t, Live(t, k).value, w);
    }
  }

  lemma RefreshSum<K, C>(t: TimerSet<K, C>, k: K, now: int, w: Entry<K, C> -> nat)
    requires Valid(t) && t.limbo == map[] && Refresh(t, k, now).0.limbo == map[]
    ensures Refresh(t, k, now).1 <==> Live(t, k).Some?
    ensures Live(t, k).Some? ==>
              var e := Live(t, k).value;
              Sum(Refresh(t, k, now).0.order, w) + w(e) == Sum(t.order, w) + w(e.(next := now + e.ms))
    ensures Live(t, k).None? ==> Refresh(t, k, now).0 == t
  {
    if Live(t, k).Some? {
      var e := Live(t, k).value;
      EraseFoundSum(t, e, w);
      EraseFoundLive(t, e, k);
      InsertDropSum(EraseFound(t, e), e.(next := now + e.ms), w);
    }
  }

  lemma InsertDropSum<K, C>(t: TimerSet<K, C>, e: Entry<K, C>, w: Entry<K, C> -> nat)
    requires Valid(t) && InsertOrDrop(t, e).limbo == map[]
    ensures !Tie(t.order, e.next)
    ensures Sum(InsertOrDrop(t, e).order, w) == Sum(t.order, w) + w(e)
  {
    assert Tie(t.order, e.next) ==> e.key in InsertOrDrop(t, e).limbo;
    InsertSum(t.order, e, w);
  }

  lemma ResetSum<K, C>(t: TimerSet<K, C>, k: K, ms: nat, fromNow: bool, now: int, w: Entry<K, C> -> nat)
    requires Valid(t) && t.limbo == map[] && Reset(t, k, ms, fromNow, now).0.limbo == map[]
    requires forall next: int :: Live(t, k).Some? ==> var e := Live(t, k).value; w(e.(next := next, ms := ms)) == w(e)
    ensures Sum(Reset(t, k, ms, fromNow, now).0.order, w) == Sum(t.order, w)
  {
    if Live(t, k).Some? {
      var e := Live(t, k).value;
      if !(ms == e.ms && !fromNow) {
        EraseFoundSum(t, e, w);
        EraseFoundLive(t, e, k);
        var e' := Moved(e, ms, fromNow, now);
        assert w(e') == w(e);
        InsertDropSum(EraseFound(t, e), e', w);
      }
    }
  }

  // ---------- listExpiredCb ----------

  lemma {:induction false} RearmSum<K, C>(t: TimerSet<K, C>, es: seq<Entry<K, C>>, now: int, w: Entry<K, C> -> nat)
    requires Valid(t) && DistinctKeys(es) && AllOut(t, es)
    requires forall i :: 0 <= i < |es| && es[i].recurring ==> w(es[i].(next := now + es[i].ms)) == 0
    ensures Sum(Rearm(t, es, now).order, w) == Sum(t.order, w)
    decreases |es|
  {
    hide Add, AllOut, Live, DistinctKeys;
    if es != [] {
      var e := es[0].(next := now + es[0].ms);
      var t1 := if es[0].recurring then InsertOrDrop(t, e) else t;
      RearmHead(t, es, now);
      InsertSum(t.order, e, w);
      RearmSum(t1, es[1..], now, w);
    }
  }

  lemma SweepSum<K, C>(t: TimerSet<K, C>, now: int, w: Entry<K, C> -> nat)
    requires Valid(t)
    requires forall i :: 0 <= i < |t.order| && t.order[i].recurring ==> w(t.order[i].(next := now + t.order[i].ms)) == 0
    ensures var (t', handed) := Sweep(t, now); Sum(t'.order, w) + Sum(handed, w) == Sum(t.order, w)
  {
    hide Valid, Live, DistinctKeys, Rearm, AllOut, Rollover, DuePrefix, Sum;
    var d := if Rollover(t, now) then |t.order| else DuePrefix(t.order, now);
    var es := t.order[..d];
    var t1 := t.(order := t.order[d..], previous := now);
    assert t.order == es + t.order[d..];
    SumAppend(es, t.order[d..], w);
    DropPrefixValid(t, d, now);
    RearmSum(t1, es, now, w);
  }

  lemma {:induction false} RearmLater<K, C>(t: TimerSet<K, C>, es: seq<Entry<K, C>>, now: int)
    requires Sorted(t.order) && (forall i :: 0 <= i < |t.order| ==> t.order[i].next > now)
    requires forall i :: 0 <= i < |es| && es[i].recurring ==> es[i].ms > 0
    ensures var r := Rearm(t, es, now).order; Sorted(r) && forall i :: 0 <= i < |r| ==> r[i].next > now
    ensures (forall i :: 0 <= i < |es| ==> !es[i].recurring) ==> Rearm(t, es, now) == t
    decreases |es|
  {
    if es != [] {
      InsertSorted(t.order, es[0].(next := now + es[0].ms));
      RearmLater(if es[0].recurring then InsertOrDrop(t, es[0].(next := now + es[0].ms)) else t, es[1..], now);
    }
  }

  /** Without rollover a sweep hands out exactly the timers due at `now`, in the order of their deadlines,
      and every deadline that remains lies after `now`. */
  lemma SweepHandsOutTheDue<K, C>(t: TimerSet<K, C>, now: int)
    requires Valid(t) && !Rollover(t, now) && SweepEnds(t, now)
    ensures var (t', handed) := Sweep(t, now);
            && handed <= t.order && Sorted(handed)
            && (forall i :: 0 <= i < |t.order| ==> (t.order[i].next <= now <==> i < |handed|))
            && Sorted(t'.order) && (forall i :: 0 <= i < |t'.order| ==> t'.order[i].next > now)
  {
    DuePrefixIsDue(t.order, now);
    var d := DuePrefix(t.order, now);
    RearmLater(t.(order := t.order[d..], previous := now), t.order[..d], now);
  }

  /** A sweep hands out, in the order of their deadlines, every timer if the clock has gone back by more than an hour
      since the last sweep, and otherwise those whose deadline has come; it remembers the clock. */
  lemma SweepHandsOutIff<K, C>(t: TimerSet<K, C>, now: int)
    requires Sorted(t.order)
    ensures var (t', handed) := Sweep(t, now);
            && |handed| <= |t.order| && handed == t.order[..|handed|]
            && (forall i :: 0 <= i < |t.order| ==>
                  (i < |handed| <==> t.previous - now > 3_600_000 || t.order[i].next <= now))
            && t'.previous == now
  {
    DuePrefixIsDue(t.order, now);
    var d := if Rollover(t, now) then |t.order| else DuePrefix(t.order, now);
    RearmRemembers(t.(order := t.order[d..], previous := now), t.order[..d], now);
  }

  lemma {:induction false} RearmRemembers<K, C>(t: TimerSet<K, C>, es: seq<Entry<K, C>>, now: int)
    ensures Rearm(t, es, now).previous == t.previous
    decreases |es|
  {
    if es != [] {
      RearmRemembers(RearmOne(t, es[0], now), es[1..], now);
    }
  }

  /** Under a rollover with only one-shot timers a sweep hands out every timer of the set and empties it. */
  lemma RolloverEmptiesTheSet<K, C>(t: TimerSet<K, C>, now: int)
    requires Valid(t) && Rollover(t, now) && SweepEnds(t, now)
    ensures Sweep(t, now).1 == t.order && Sweep(t, now).0.order == []
  {
    assert t.order[|t.order|..] == [];
    assert t.order[..|t.order|] == t.order;
    RearmLater(t.(order := [], previous := now), t.order, now);
  }

  /** Every timer in the set after an insertion was there before or is the new one. */
  lemma AddMembers<K, C>(t: TimerSet<K, C>, e: Entry<K, C>)
    requires Valid(t)
    ensures var r := Add(t, e).order;
            forall i :: 0 <= i < |r| ==> r[i] == e || exists j :: 0 <= j < |t.order| && t.order[j] == r[i]
  {
    InsertSorted(t.order, e);
  }

  /** A cancelled timer is gone and every other one was there before. */
  lemma CancelMembers<K, C>(t: TimerSet<K, C>, k: K)
    requires Valid(t) && t.limbo == map[]
    ensures var r := Cancel(t, k).0.order;
            && (forall i :: 0 <= i < |r| ==> r[i].key != k && exists j :: 0 <= j < |t.order| && t.order[j] == r[i])
            && |r| <= |t.order|
  {
    if Live(t, k).Some? {
      FindIsTheTimer(t, k);
    }
    var t' := Cancel(t, k).0;
    forall i | 0 <= i < |t'.order|
      ensures t'.order[i].key != k && exists j :: 0 <= j < |t.order| && t.order[j] == t'.order[i]
    {
      CancelLive(t, k, t'.order[i].key);
      LiveMeans(t', t'.order[i].key, t'.order[i]);
      assert t.order[FindKey(t.order, t'.order[i].key).value] == t'.order[i];
    }
  }

  /** refresh and reset change the deadline and the period of one timer only. */
  lemma RefreshMembers<K, C>(t: TimerSet<K, C>, k: K, now: int, i: nat) returns (j: nat)
    requires Valid(t) && t.limbo == map[] && i < |Refresh(t, k, now).0.order|
    ensures j < |t.order|
    ensures var e := Refresh(t, k, now).0.order[i];
            e == t.order[j] || (e.key == k && e == t.order[j].(next := now + t.order[j].ms))
  {
    var t' := Refresh(t, k, now).0;
    RefreshLive(t, k, now, t'.order[i].key);
    LiveMeans(t', t'.order[i].key, t'.order[i]);
    j := FindKey(t.order, t'.order[i].key).value;
  }

  lemma ResetMembers<K, C>(t: TimerSet<K, C>, k: K, ms: nat, fromNow: bool, now: int, i: nat) returns (j: nat)
    requires Valid(t) && t.limbo == map[] && i < |Reset(t, k, ms, fromNow, now).0.order|
    ensures j < |t.order|
    ensures var e := Reset(t, k, ms, fromNow, now).0.order[i];
            e == t.order[j] || (e.key == k && e == Moved(t.order[j], ms, fromNow, now))
  {
    var t' := Reset(t, k, ms, fromNow, now).0;
    ResetLive(t, k, ms, fromNow, now, t'.order[i].key);
    LiveMeans(t', t'.order[i].key, t'.order[i]);
    j := FindKey(t.order, t'.order[i].key).value;
  }

  /** Every timer in the set after a sweep was there before, or is a recurring one that went back. */
  lemma SweepMembers<K, C>(t: TimerSet<K, C>, now: int, i: nat) returns (j: nat)
    requires Valid(t) && t.limbo == map[] && i < |Sweep(t, now).0.order|
    ensures j < |t.order|
    ensures var e := Sweep(t, now).0.order[i];
            e == t.order[j] || (t.order[j].recurring && e == t.order[j].(next := now + t.order[j].ms))
  {
    var (t', handed) := Sweep(t, now);
    var k := t'.order[i].key;
    SweepLive(t, now, k);
    LiveMeans(t', k, t'.order[i]);
    j := FindKey(t.order, k).value;
  }

  lemma {:induction false} TieInsert<K, C>(es: seq<Entry<K, C>>, e: Entry<K, C>, next: int)
    requires Sorted(es) && !Tie(es, e.next)
    ensures Tie(Insert(es, e), next) <==> Tie(es, next) || next == e.next
  {
    InsertSorted(es, e);
    var r := Insert(es, e);
    if Tie(es, next) {
      assert es[Find(es, next).value] in r;
    }
    assert e in r;
  }

  lemma {:induction false} RearmKeepsLimbo<K, C>(t: TimerSet<K, C>, es: seq<Entry<K, C>>, now: int)
    requires t.limbo != map[]
    ensures Rearm(t, es, now).limbo != map[]
    decreases |es|
  {
    if es != [] {
      var e := es[0].(next := now + es[0].ms);
      assert e.key in t.limbo[e.key := e];
      RearmKeepsLimbo(if es[0].recurring then InsertOrDrop(t, e) else t, es[1..], now);
    }
  }

  /** The recurring timers among `es` go back at free and pairwise distinct deadlines. */
  predicate RearmsApart<K, C>(order: seq<Entry<K, C>>, es: seq<Entry<K, C>>, now: int) {
    && (forall i :: 0 <= i < |es| && es[i].recurring ==> !Tie(order, now + es[i].ms))
    && (forall i, j :: 0 <= i < j < |es| && es[i].recurring && es[j].recurring ==> es[i].ms != es[j].ms)
  }

  /** The recurring timers that a sweep hands out go back at deadlines that are pairwise distinct and not taken. */
  predicate SweepsApart<K(==), C>(t: TimerSet<K, C>, now: int) {
    var handed := Sweep(t, now).1;
    RearmsApart(t.order[|handed|..], handed, now)
  }

  lemma {:induction false} RearmLeavesNoneOut<K, C>(t: TimerSet<K, C>, es: seq<Entry<K, C>>, now: int)
    requires Valid(t) && t.limbo == map[] && DistinctKeys(es) && AllOut(t, es)
    ensures Rearm(t, es, now).limbo == map[] <==> RearmsApart(t.order, es, now)
    decreases |es|
  {
    if es != [] {
      var e := es[0].(next := now + es[0].ms);
      var t1 := if es[0].recurring then InsertOrDrop(t, e) else t;
      assert forall i :: 0 <= i < |es[1..]| ==> es[1..][i] == es[i + 1];
      if es[0].recurring && Tie(t.order, e.next) {
        assert e.key in t1.limbo;
        RearmKeepsLimbo(t1, es[1..], now);
      } else {
        RearmHead(t, es, now);
        RearmLeavesNoneOut(t1, es[1..], now);
        if es[0].recurring {
          forall i | 1 <= i < |es|
            ensures Tie(t1.order, now + es[i].ms) <==> Tie(t.order, now + es[i].ms) || es[i].ms == es[0].ms
          {
            TieInsert(t.order, e, now + es[i].ms);
          }
        }
        RearmsApartStep(t, t1, es, now);
      }
    }
  }

  lemma RearmsApartStep<K, C>(t: TimerSet<K, C>, t1: TimerSet<K, C>, es: seq<Entry<K, C>>, now: int)
    requires es != [] && (es[0].recurring ==> !Tie(t.order, now + es[0].ms)) && (!es[0].recurring ==> t1 == t)
    requires es[0].recurring ==> forall i :: 1 <= i < |es| ==>
               (Tie(t1.order, now + es[i].ms) <==> Tie(t.order, now + es[i].ms) || es[i].ms == es[0].ms)
    ensures RearmsApart(t1.order, es[1..], now) <==> RearmsApart(t.order, es, now)
  {
    assert forall i :: 0 <= i < |es[1..]| ==> es[1..][i] == es[i + 1];
    assert forall i :: 1 <= i < |es| ==> es[i] == es[1..][i - 1];
  }

  /** A sweep keeps every timer that has a callback inside the set iff what it re-arms comes back apart. */
  lemma SweepLeavesNoneOut<K, C>(t: TimerSet<K, C>, now: int)
    requires Valid(t) && t.limbo == map[] && SweepEnds(t, now)
    ensures Sweep(t, now).0.limbo == map[] <==> SweepsApart(t, now)
  {
    var d := if Rollover(t, now) then |t.order| else DuePrefix(t.order, now);
    DropPrefixValid(t, d, now);
    RearmLeavesNoneOut(t.(order := t.order[d..], previous := now), t.order[..d], now);
  }

  /** Two recurring timers of one period that fall due in one sweep: the sweep puts only the first one back. */
  lemma EqualPeriodsLoseATimer<K, C>(a: K, b: K, ca: C, cb: C)
    requires a != b
    ensures var t := TimerSet([Entry(a, 5, 10, true, ca), Entry(b, 6, 10, true, cb)], map[], false, 0, None);
            var (t', handed) := Sweep(t, 7);
            && Valid(t) && SweepEnds(t, 7) && !Rollover(t, 7)
            && handed == t.order
            && t'.order == [Entry(a, 17, 10, true, ca)] && t'.limbo == map[b := Entry(b, 17, 10, true, cb)]
  {
    var ea, eb := Entry(a, 5, 10, true, ca), Entry(b, 6, 10, true, cb);
    var t := TimerSet([ea, eb], map[], false, 0, None);
    assert t.order[1..] == [eb] && [eb][1..] == [];
    assert DuePrefix(t.order, 7) == 2;
    assert t.order[..2] == [ea, eb] && t.order[2..] == [];
    var t0 := t.(order := [], previous := 7);
    var t1 := InsertOrDrop(t0, ea.(next := 17));
    assert Rearm(t0, [ea, eb], 7) == Rearm(t1, [eb], 7);
    assert t1.order == [ea.(next := 17)];
    var t2 := InsertOrDrop(t1, eb.(next := 17));
    assert Rearm(t1, [eb], 7) == Rearm(t2, [], 7);
  }

  // ---------- the front of the set ----------

  /** Either a wake-up is on its way or no deadline is earlier than the one getNextTimer last saw. */
  ghost predicate FrontCovered<K, C>(t: TimerSet<K, C>) {
    t.tickled || t.order == [] || (t.seen.Some? && t.seen.value <= t.order[0].next)
  }

  /** No timer was armed after `now`, and the last sweep was not later. */
  ghost predicate Punctual<K, C>(t: TimerSet<K, C>, now: int) {
    && (forall i :: 0 <= i < |t.order| ==> t.order[i].next - t.order[i].ms <= now)
    && (forall k :: k in t.limbo ==> t.limbo[k].next - t.limbo[k].ms <= now)
    && t.previous <= now
  }

  ghost predicate FrontInv<K, C>(t: TimerSet<K, C>, now: int) {
    Valid(t) && Punctual(t, now) && FrontCovered(t)
  }

  /** Every deadline is at or after `bound`. */
  ghost predicate NotBefore<K, C>(es: seq<Entry<K, C>>, bound: int) {
    forall i :: 0 <= i < |es| ==> bound <= es[i].next
  }

  lemma InsertOrDropPunctual<K, C>(t: TimerSet<K, C>, e: Entry<K, C>, now: int)
    requires Valid(t) && Punctual(t, now) && e.next - e.ms <= now
    ensures Punctual(InsertOrDrop(t, e), now)
  {
    InsertSorted(t.order, e);
  }

  lemma EraseFoundPunctual<K, C>(t: TimerSet<K, C>, e: Entry<K, C>, now: int)
    requires Valid(t) && Punctual(t, now) && Tie(t.order, e.next)
    ensures Punctual(EraseFound(t, e), now)
    ensures FrontCovered(t) ==> FrontCovered(EraseFound(t, e))
    ensures FrontCovered(t) && !t.tickled ==> t.seen.Some? && t.seen.value <= e.next
  {
    EraseSorted(t.order, Find(t.order, e.next).value);
  }

  lemma AddFront<K, C>(t: TimerSet<K, C>, e: Entry<K, C>, now: int)
    requires FrontInv(t, now) && Live(t, e.key).None? && e.next - e.ms <= now
    ensures FrontInv(Add(t, e), now)
  {
    AddLive(t, e, e.key);
    InsertSorted(t.order, e);
    InsertOrDropPunctual(t, e, now);
  }

  /** addTimer leaves a wake-up pending iff one was, or no timer in the set has an earlier deadline. */
  lemma AddTicklesIff<K, C>(t: TimerSet<K, C>, e: Entry<K, C>)
    requires Sorted(t.order)
    ensures Add(t, e).tickled <==> t.tickled || forall i :: 0 <= i < |t.order| ==> e.next <= t.order[i].next
  {
    InsertSorted(t.order, e);
    if Tie(t.order, e.next) {
      assert t.order[Find(t.order, e.next).value].next == e.next;
    }
  }

  lemma CancelFront<K, C>(t: TimerSet<K, C>, k: K, now: int)
    requires FrontInv(t, now)
    ensures FrontInv(Cancel(t, k).0, now)
  {
    CancelLive(t, k, k);
    if Live(t, k).Some? && Tie(t.order, Live(t, k).value.next) {
      EraseFoundPunctual(t, Live(t, k).value, now);
    }
  }

  lemma LivePunctual<K, C>(t: TimerSet<K, C>, k: K, now: int)
    requires Valid(t) && Punctual(t, now) && Live(t, k).Some?
    ensures Live(t, k).value.key == k && Live(t, k).value.next - Live(t, k).value.ms <= now
  {
    LiveMeans(t, k, Live(t, k).value);
  }

  lemma ReinsertFront<K, C>(t: TimerSet<K, C>, e: Entry<K, C>, now: int)
    requires FrontInv(t, now) && Live(t, e.key).None? && e.next - e.ms <= now
    requires t.tickled || (t.seen.Some? && t.seen.value <= e.next)
    ensures FrontInv(InsertOrDrop(t, e), now)
  {
    InsertSorted(t.order, e);
    InsertOrDropPunctual(t, e, now);
    InsertOrDropLive(t, e, e.key);
  }

  lemma EraseFoundFront<K, C>(t: TimerSet<K, C>, e: Entry<K, C>, now: int)
    requires FrontInv(t, now) && Live(t, e.key) == Some(e) && Tie(t.order, e.next)
    ensures var t1 := EraseFound(t, e);
            FrontInv(t1, now) && Live(t1, e.key).None? && (t1.tickled || (t1.seen.Some? && t1.seen.value <= e.next))
  {
    EraseFoundPunctual(t, e, now);
    EraseFoundLive(t, e, e.key);
  }

  /** refresh inserts without a wake-up; that is harmless because the deadline only moves later. */
  lemma RefreshFront<K, C>(t: TimerSet<K, C>, k: K, now: int)
    requires FrontInv(t, now)
    ensures FrontInv(Refresh(t, k, now).0, now)
  {
    hide Tie, EraseFound, InsertOrDrop, FrontCovered, Punctual;
    if Live(t, k).Some? && Tie(t.order, Live(t, k).value.next) {
      LiveKey(t, k);
      LivePunctual(t, k, now);
      var e := Live(t, k).value;
      EraseFoundFront(t, e, now);
      ReinsertFront(EraseFound(t, e), e.(next := now + e.ms), now);
    }
  }

  lemma ResetFront<K, C>(t: TimerSet<K, C>, k: K, ms: nat, fromNow: bool, now: int)
    requires FrontInv(t, now)
    ensures FrontInv(Reset(t, k, ms, fromNow, now).0, now)
  {
    if Live(t, k).Some? && Tie(t.order, Live(t, k).value.next) {
      LivePunctual(t, k, now);
      var e := Live(t, k).value;
      EraseFoundFront(t, e, now);
      AddFront(EraseFound(t, e), Moved(e, ms, fromNow, now), now);
    }
  }

  lemma GetNextFront<K, C>(t: TimerSet<K, C>, now: int)
    requires FrontInv(t, now)
    ensures FrontInv(GetNext(t, now).0, now)
  {
  }

  lemma {:induction false} RearmPunctual<K, C>(t: TimerSet<K, C>, es: seq<Entry<K, C>>, now: int)
    requires Valid(t) && Punctual(t, now) && DistinctKeys(es) && AllOut(t, es)
    ensures var t' := Rearm(t, es, now);
            && Valid(t') && Punctual(t', now) && t'.tickled == t.tickled && t'.seen == t.seen
            && forall bound :: NotBefore(t.order, bound) && bound <= now ==> NotBefore(t'.order, bound)
    decreases |es|
  {
    if es != [] {
      var e := es[0].(next := now + es[0].ms);
      var t1 := if es[0].recurring then InsertOrDrop(t, e) else t;
      InsertSorted(t.order, e);
      InsertOrDropPunctual(t, e, now);
      RearmHead(t, es, now);
      assert forall bound :: NotBefore(t.order, bound) && bound <= now ==> NotBefore(t1.order, bound);
      RearmPunctual(t1, es[1..], now);
    }
  }

  /** A sweep re-arms without a wake-up; with a monotone clock the new deadlines lie after the ones it took out. */
  lemma SweepFront<K, C>(t: TimerSet<K, C>, now: int)
    requires FrontInv(t, now)
    ensures FrontInv(Sweep(t, now).0, now)
  {
    var d := DuePrefix(t.order, now);
    DuePrefixIsDue(t.order, now);
    DropPrefixValid(t, d, now);
    var t1 := t.(order := t.order[d..], previous := now);
    assert forall i :: 0 <= i < |t1.order| ==> t1.order[i] == t.order[i + d];
    RearmPunctual(t1, t.order[..d], now);
    var t' := Sweep(t, now).0;
    if !t.tickled && t'.order != [] {
      if d == 0 {
        assert t.order[..d] == [] && t1.order == t.order;
      } else {
        assert t.order[0].next <= now;
        assert NotBefore(t1.order, t.seen.value);
        assert NotBefore(t'.order, t.seen.value);
      }
    }
  }

  /** The clock never goes back during the run. */
  ghost predicate Monotone<K, C>(run: seq<(TimerOp<K, C>, int)>, now: int)
    decreases |run|
  {
    run == [] || (now <= run[0].1 && Monotone(run[1..], run[0].1))
  }

  /** Over every run with a monotone clock, ties or not: either a wake-up is pending or the earliest
      deadline is no earlier than the one the last getNextTimer saw. */
  lemma {:induction false} FrontAlwaysCovered<K, C>(l: Ledger<K, C>, run: seq<(TimerOp<K, C>, int)>, now: int)
    requires FrontInv(l.set_, now)
    requires forall k :: k in l.kinds || Live(l.set_, k).None?
    requires Monotone(run, now)
    ensures FrontCovered(RecordAll(l, run).set_)
    decreases |run|
  {
    if run != [] {
      var (op, t) := run[0];
      RecordFront(l, op, now, t);
      forall k ensures k in Record(l, op, t).kinds || Live(Record(l, op, t).set_, k).None? {
        RecordKeepsKinds(l, op, t, k);
      }
      FrontAlwaysCovered(Record(l, op, t), run[1..], t);
    }
  }

  lemma LaterFront<K, C>(t: TimerSet<K, C>, before: int, now: int)
    requires FrontInv(t, before) && before <= now
    ensures FrontInv(t, now)
  {
  }

  lemma RecordFront<K, C>(l: Ledger<K, C>, op: TimerOp<K, C>, before: int, now: int)
    requires FrontInv(l.set_, before) && before <= now
    requires forall k :: k in l.kinds || Live(l.set_, k).None?
    ensures FrontInv(Record(l, op, now).set_, now)
  {
    hide Add, Cancel, Refresh, Reset, GetNext, Sweep, FrontInv, Live, FindKey, DuePrefix, Free, Tie;
    LaterFront(l.set_, before, now);
    match op {
      case OpAdd(c, ms, recurring, cb) =>
        if c !in l.kinds {
          AddFront(l.set_, Entry(c, now + ms, ms, recurring, cb), now);
        }
      case OpCancel(c) => CancelFront(l.set_, c, now);
      case OpRefresh(c) => RefreshFront(l.set_, c, now);
      case OpReset(c, ms, fromNow) => ResetFront(l.set_, c, ms, fromNow, now);
      case OpGetNext => GetNextFront(l.set_, now);
      case OpSweep => SweepFront(l.set_, now);
    }
  }

  lemma RecordKeepsKinds<K, C>(l: Ledger<K, C>, op: TimerOp<K, C>, now: int, k: K)
    requires Valid(l.set_) && (k in l.kinds || Live(l.set_, k).None?)
    requires op.OpAdd? ==> op.key in l.kinds || Live(l.set_, op.key).None?
    ensures k in Record(l, op, now).kinds || Live(Record(l, op, now).set_, k).None?
  {
    match op {
      case OpAdd(c, ms, recurring, cb) =>
        if c !in l.kinds {
          AddLive(l.set_, Entry(c, now + ms, ms, recurring, cb), k);
        }
      case OpCancel(c) => CancelLive(l.set_, c, k);
      case OpRefresh(c) => RefreshLive(l.set_, c, now, k);
      case OpReset(c, ms, fromNow) => ResetLive(l.set_, c, ms, fromNow, now, k);
      case OpGetNext =>
      case OpSweep => SweepLive(l.set_, now, k);
    }
  }

  /** Every timer with a callback has been created. */
  ghost predicate KnownKeys<K(!new), C>(l: Ledger<K, C>) {
    forall k :: k in l.kinds || Live(l.set_, k).None?
  }

  lemma KeysStayKnown<K(!new), C>(l: Ledger<K, C>, op: TimerOp<K, C>, now: int)
    requires Valid(l.set_) && KnownKeys(l)
    ensures KnownKeys(Record(l, op, now))
    ensures forall k :: k in l.kinds ==> k in Record(l, op, now).kinds
  {
    forall k ensures k in Record(l, op, now).kinds || Live(Record(l, op, now).set_, k).None? {
      RecordKeepsKinds(l, op, now, k);
    }
  }

  lemma NewKeyIsDead<K(!new), C>(l: Ledger<K, C>, c: K)
    requires KnownKeys(l) && c !in l.kinds
    ensures Live(l.set_, c).None?
  {
  }
}
