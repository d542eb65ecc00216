// Timer and TimerManager with their fields updated in place, proved against the functions of Timers.

module TimerManager {
  import opened Base
  import Tm = Timers

  class Timer<C(==)> {
    const manager: Manager<C>
    const recurring: bool
    var ms: nat
    var next: int
    var cb: Option<C>

    constructor (manager: Manager<C>, ms: nat, cb: C, recurring: bool, now: int)
      ensures this.manager == manager && this.recurring == recurring
      ensures this.ms == ms && next == now + ms && this.cb == Some(cb)
    {
      this.manager := manager;
      this.recurring := recurring;
      this.ms := ms;
      this.next := now + ms;
      this.cb := Some(cb);
    }

    /** cancel: true exactly when there was a callback to take away. The two updates are under one lock. */
    method Cancel() returns (ok: bool)
      requires manager.Valid() && this in manager.all
      modifies this, manager`timers
      ensures manager.Valid()
      ensures (manager.View(), ok) == Tm.Cancel(old(manager.View()), this)
    {
      hide Tm.Tie, Tm.Live, Tm.EraseFound;
      manager.LiveIsCallback(this);
      if cb.None? {
        return false;
      }
      var found := manager.Detach(this);
      Finish();
      return true;
    }

    /** A timer outside the set loses its callback. */
    method Finish()
      requires manager.Valid() && this in manager.all && this !in manager.timers
      modifies this`cb
      ensures manager.Valid() && cb.None?
      ensures manager.View() == old(manager.View().(limbo := manager.Limbo() - {this}))
    {
      ghost var order, limbo := manager.Order(), manager.Limbo();
      cb := None;
      assert manager.Order() == order;
      assert manager.Limbo() == limbo - {this};
    }

    /** refresh: the deadline moves to a period after now. No worker is woken. */
    method Refresh(now: int) returns (ok: bool)
      requires manager.Valid() && this in manager.all
      modifies this, manager`timers
      ensures manager.Valid()
      ensures (manager.View(), ok) == Tm.Refresh(old(manager.View()), this, now)
    {
      hide Tm.Tie, Tm.Live, Tm.EraseFound, Tm.Insert;
      manager.LiveIsCallback(this);
      if cb.None? {
        return false;
      }
      var found := manager.Detach(this);
      if !found {
        return false;
      }
      Move(ms, now + ms);
      var _ := manager.Insert(this);
      return true;
    }

    /** reset, with the clock read once. */
    method Reset(ms: nat, fromNow: bool, now: int) returns (ok: bool, wake: bool)
      requires manager.Valid() && this in manager.all
      modifies this, manager`timers, manager`tickled
      ensures manager.Valid()
      ensures ms == old(this.ms) && !fromNow ==> ok && manager.View() == old(manager.View())
      ensures !(ms == old(this.ms) && !fromNow) ==>
                (manager.View(), ok) == Tm.Reset(old(manager.View()), this, ms, fromNow, now)
      ensures wake == (manager.tickled && !old(manager.tickled))
    {
      hide Tm.Tie, Tm.Live, Tm.EraseFound, Tm.Insert, Tm.Add;
      manager.LiveIsCallback(this);
      if ms == this.ms && !fromNow {
        return true, false;
      }
      if cb.None? {
        return false, false;
      }
      var found := manager.Detach(this);
      if !found {
        return false, false;
      }
      var start := if fromNow then now else next - this.ms;
      Move(ms, start + ms);
      wake := manager.AddExisting(this);
      return true, wake;
    }

    /** A timer outside the set gets a new period and deadline: the set does not notice. */
    method Move(ms: nat, next: int)
      requires manager.Valid() && this in manager.all && this !in manager.timers && cb.Some?
      modifies this`ms, this`next
      ensures manager.Valid() && cb.Some? && Snap() == old(Snap()).(ms := ms, next := next)
      ensures manager.View().(limbo := manager.Limbo() - {this})
              == old(manager.View().(limbo := manager.Limbo() - {this}))
    {
      ghost var order, limbo := manager.Order(), manager.Limbo() - {this};
      this.ms, this.next := ms, next;
      assert manager.Order() == order;
      assert manager.Limbo() - {this} == limbo;
    }

    ghost function Snap(): Tm.Entry<Timer<C>, C>
      reads this
      requires cb.Some?
    {
      Tm.Entry(this, next, ms, recurring, cb.value)
    }
  }

  class Manager<C(==)> {
    /** m_timers, in the order of the set. */
    var timers: seq<Timer<C>>
    var tickled: bool
    var previous: int
    /** Every timer of this manager, and the deadline getNextTimer last saw. */
    ghost var all: set<Timer<C>>
    ghost var seen: Option<int>

    ghost predicate Valid()
      reads this, all
    {
      && (forall t :: t in all ==> t.manager == this)
      && (forall i :: 0 <= i < |timers| ==> timers[i] in all && timers[i].cb.Some?)
      && (forall i, j :: 0 <= i < j < |timers| ==> timers[i].next < timers[j].next)
    }

    ghost function Order(): (r: seq<Tm.Entry<Timer<C>, C>>)
      reads this, all
      requires Valid()
      ensures |r| == |timers| && forall i :: 0 <= i < |r| ==> r[i] == timers[i].Snap()
    {
      seq(|timers|, i requires 0 <= i < |timers| && Valid() reads this, all => timers[i].Snap())
    }

    /** Timers that have a callback but are not in the set. */
    ghost function Limbo(): map<Timer<C>, Tm.Entry<Timer<C>, C>>
      reads this, all
    {
      map t | t in all && t.cb.Some? && t !in timers :: t.Snap()
    }

    ghost function View(): Tm.TimerSet<Timer<C>, C>
      reads this, all
      requires Valid()
    {
      Tm.TimerSet(Order(), Limbo(), tickled, previous, seen)
    }

    lemma ViewIsValid()
      requires Valid()
      ensures Tm.Valid(View())
    {
    }

    lemma LiveIsCallback(t: Timer<C>)
      requires Valid() && t in all
      ensures Tm.Live(View(), t) == if t.cb.Some? then Some(t.Snap()) else None
    {
      ViewIsValid();
      if t.cb.Some? {
        if t in timers {
          var i :| 0 <= i < |timers| && timers[i] == t;
          assert Order()[i] == t.Snap();
        }
        Tm.LiveMeans(View(), t, t.Snap());
      }
    }

    constructor (now: int)
      ensures Valid() && View() == Tm.EmptySet(now) && all == {}
    {
      timers := [];
      tickled := false;
      previous := now;
      all := {};
      seen := None;
    }

    /** m_timers.find: the position of the timer with this deadline, None for end(). */
    method Find(next: int) returns (r: Option<nat>)
      ensures IsFound(timers, next, r)
    {
      var i := 0;
      while i < |timers|
        invariant 0 <= i <= |timers|
        invariant forall j :: 0 <= j < i ==> timers[j].next != next
      {
        if timers[i].next == next {
          return Some(i);
        }
        i := i + 1;
      }
      return None;
    }

    /** Links a new element in before position i. */
    method Place(t: Timer<C>, i: nat)
      requires Valid() && t in all && t !in timers && t.cb.Some? && i <= |timers|
      requires forall j :: 0 <= j < i ==> timers[j].next < t.next
      requires forall j :: i <= j < |timers| ==> timers[j].next > t.next
      modifies this`timers
      ensures Valid() && Members(timers) == Members(old(timers)) + {t}
      ensures Order() == old(Order())[..i] + [t.Snap()] + old(Order())[i..]
      ensures Limbo() == old(Limbo()) - {t}
    {
      ghost var before, order := timers, Order();
      timers := timers[..i] + [t] + timers[i..];
      Splice(before, t, i);
      Splice(order, t.Snap(), i);
      assert Valid() by {
        SpliceSorted(before, t, i);
      }
      assert Order() == order[..i] + [t.Snap()] + order[i..] by {
        assert forall k :: 0 <= k < |timers| ==> Order()[k] == timers[k].Snap();
      }
    }

    /** m_timers.insert: on a tie the set keeps what it has. Returns the position of the element with
        that deadline. */
    method Insert(t: Timer<C>) returns (pos: nat)
      requires Valid() && t in all && t !in timers && t.cb.Some?
      modifies this`timers
      ensures Valid() && pos < |timers| && timers[pos].next == t.next
      ensures Members(timers) <= Members(old(timers)) + {t}
      ensures View() == Tm.InsertOrDrop(old(View()).(limbo := old(Limbo()) - {t}), t.Snap())
    {
      hide Tm.Insert, Tm.Tie, Tm.Find;
      var i := 0;
      while i < |timers| && timers[i].next < t.next
        invariant 0 <= i <= |timers|
        invariant forall j :: 0 <= j < i ==> timers[j].next < t.next
      {
        i := i + 1;
      }
      TieAt(Order(), t.next, i);
      InsertAt(Order(), t.Snap(), i);
      pos := i;
      assert t in Limbo() && Limbo() == (Limbo() - {t})[t := t.Snap()];
      if i == |timers| || timers[i].next != t.next {
        Place(t, i);
      }
    }

    /** find and, when there is something at this timer's deadline, erase: after a tie that may be another
        timer, which keeps its callback. */
    method Detach(t: Timer<C>) returns (found: bool)
      requires Valid() && t in all && t.cb.Some?
      modifies this`timers
      ensures Valid() && t !in timers
      ensures found == Tm.Tie(old(Order()), t.next)
      ensures !found ==> timers == old(timers)
      ensures found ==> View().(limbo := Limbo() - {t}) == Tm.EraseFound(old(View()), t.Snap())
    {
      hide Tm.Tie, Tm.Find;
      ghost var before := View();
      var it := Find(t.next);
      FoundIs(timers, Order(), t.next, it);
      found := it.Some?;
      if found {
        Erase(it.value);
      }
    }

    /** m_timers.erase. */
    method Erase(i: nat)
      requires Valid() && i < |timers|
      modifies this`timers
      ensures Valid() && timers == old(timers)[..i] + old(timers)[i + 1..] && old(timers)[i] !in timers
      ensures Order() == Tm.EraseAt(old(Order()), i)
      ensures Limbo() == old(Limbo())[old(timers)[i] := old(timers)[i].Snap()]
    {
      ghost var t := timers[i];
      timers := timers[..i] + timers[i + 1..];
      assert t !in timers;
    }

    /** addTimer(timer): the insert, and whether to wake a worker up, once until the next getNextTimer. */
    method AddExisting(t: Timer<C>) returns (wake: bool)
      requires Valid() && t in all && t !in timers && t.cb.Some?
      modifies this`timers, this`tickled
      ensures Valid()
      ensures View() == Tm.Add(old(View()).(limbo := old(Limbo()) - {t}), t.Snap())
      ensures wake == (tickled && !old(tickled))
    {
      hide Tm.Insert, Tm.Tie, Tm.Find;
      var pos := Insert(t);
      wake := pos == 0 && !tickled;
      if wake {
        tickled := true;
      }
    }

    method AddTimer(ms: nat, cb: C, recurring: bool, now: int) returns (t: Timer<C>, wake: bool)
      requires Valid()
      modifies this
      ensures Valid() && fresh(t) && all == old(all) + {t} && t.manager == this
      ensures View() == Tm.Add(old(View()), Tm.Entry(t, now + ms, ms, recurring, cb))
      ensures wake == (tickled && !old(tickled))
    {
      hide Tm.Insert, Tm.Tie, Tm.Find, Tm.Add;
      ghost var before := View();
      t := new Timer(this, ms, cb, recurring, now);
      all := all + {t};
      assert Order() == before.order;
      assert Limbo() - {t} == before.limbo;
      wake := AddExisting(t);
    }

    /** None is ~0ull. */
    method GetNextTimer(now: int) returns (r: Option<nat>)
      requires Valid()
      modifies this`tickled, this`seen
      ensures Valid() && (View(), r) == Tm.GetNext(old(View()), now)
    {
      ghost var order, limbo := Order(), Limbo();
      tickled := false;
      if timers == [] {
        r, seen := None, None;
      } else {
        var next := timers[0].next;
        r, seen := Some(if now >= next then 0 else next - now), Some(next);
      }
      assert Order() == order && Limbo() == limbo;
    }

    method DetectClockRollover(now: int) returns (rollover: bool)
      requires Valid()
      modifies this`previous
      ensures Valid() && rollover == Tm.Rollover(old(View()), now)
      ensures View() == old(View()).(previous := now)
    {
      rollover := now < previous - Tm.Hour;
      previous := now;
    }

    method PopFront()
      requires Valid() && timers != []
      modifies this`timers
      ensures Valid() && timers == old(timers)[1..] && old(timers)[0] !in timers
              && Members(timers) <= Members(old(timers))
      ensures View().(limbo := Limbo() - {old(timers)[0]}) == old(View()).(order := old(Order())[1..])
    {
      ghost var before, temp := View(), timers[0];
      Erase(0);
      assert Order() == before.order[1..];
      assert Limbo() - {temp} == before.limbo;
    }

    /** One round of the loop of listExpiredCb: the first timer leaves the set, and comes back a period
        after `now` when it recurs. */
    method ExpireFront(now: int) returns (cb: C)
      requires Valid() && timers != []
      modifies this`timers, timers[0]
      ensures Valid() && Members(timers) <= Members(old(timers))
      ensures cb == old(timers[0].cb.value)
      ensures View() == Tm.RearmOne(old(View()).(order := old(Order())[1..]), old(Order())[0], now)
    {
      hide Tm.Tie, Tm.Insert, Tm.InsertOrDrop;
      var temp := timers[0];
      cb := temp.cb.value;
      PopFront();
      hide Members;
      if temp.recurring {
        temp.Move(temp.ms, now + temp.ms);
        var _ := Insert(temp);
      } else {
        temp.Finish();
      }
    }

    /** listExpiredCb. Its loop ends because a recurring timer that is handed out is not due again. */
    method ListExpired(now: int) returns (cbs: seq<C>)
      requires Valid() && Tm.SweepEnds(View(), now)
      modifies this`timers, this`previous, timers
      ensures Valid()
      ensures var (t, handed) := Tm.Sweep(old(View()), now); View() == t && cbs == Callbacks(handed)
    {
      hide Tm.RearmOne, Tm.SweepEnds, Tm.Rollover, Tm.Valid, Tm.Sweep, Count, After, Callbacks, Members;
      ghost var t0, k := View(), 0;
      ViewIsValid();
      SweepIsAfter(t0, now);
      var rollover := DetectClockRollover(now);
      cbs := [];
      NoCallbacks(t0.order);
      while timers != [] && (rollover || timers[0].next <= now)
        invariant Valid() && 0 <= k <= Count(t0, now) && View() == After(t0, now, k)
        invariant cbs == Callbacks(t0.order[..k])
        invariant Members(timers) <= Members(old(timers))
        decreases Count(t0, now) - k
      {
        RoundStops(t0, now);
        RoundGoesOn(t0, now, k);
        FrontIsMember(timers);
        var cb := ExpireFront(now);
        CallbacksSnoc(t0.order, k);
        cbs := cbs + [cb];
        k := k + 1;
      }
      if k < Count(t0, now) {
        RoundGoesOn(t0, now, k);
      }
    }
  }

  // ---------- the loop of listExpiredCb ----------

  function Callbacks<K, C>(es: seq<Tm.Entry<K, C>>): seq<C> {
    seq(|es|, i requires 0 <= i < |es| => es[i].cb)
  }

  lemma NoCallbacks<K, C>(es: seq<Tm.Entry<K, C>>)
    ensures Callbacks(es[..0]) == []
  {
  }

  lemma CallbacksSnoc<K, C>(es: seq<Tm.Entry<K, C>>, k: nat)
    requires k < |es|
    ensures Callbacks(es[..k + 1]) == Callbacks(es[..k]) + [es[k].cb]
  {
  }

  lemma FrontIsMember<T>(s: seq<T>)
    requires s != []
    ensures s[0] in Members(s)
  {
  }

  /** Re-arming one timer more. */
  lemma {:induction false} RearmAppend<K, C>(t: Tm.TimerSet<K, C>, es: seq<Tm.Entry<K, C>>, e: Tm.Entry<K, C>, now: int)
    ensures Tm.Rearm(t, es + [e], now) == Tm.RearmOne(Tm.Rearm(t, es, now), e, now)
    decreases |es|
  {
    hide Tm.RearmOne;
    if es == [] {
      assert Tm.Rearm(Tm.RearmOne(t, e, now), [e][1..], now) == Tm.RearmOne(t, e, now);
    } else {
      assert (es + [e])[1..] == es[1..] + [e];
      RearmAppend(Tm.RearmOne(t, es[0], now), es[1..], e, now);
    }
  }

  function Push<K, C>(h: Tm.Entry<K, C>, t: Tm.TimerSet<K, C>): Tm.TimerSet<K, C> {
    t.(order := [h] + t.order)
  }

  /** Timers re-armed for later than the front of the set leave it in front. */
  lemma {:induction false} RearmBehind<K, C>(h: Tm.Entry<K, C>, t: Tm.TimerSet<K, C>, es: seq<Tm.Entry<K, C>>, now: int)
    requires forall i :: 0 <= i < |es| && es[i].recurring ==> h.next < now + es[i].ms
    ensures Tm.Rearm(Push(h, t), es, now) == Push(h, Tm.Rearm(t, es, now))
    decreases |es|
  {
    if es != [] {
      assert Tm.RearmOne(Push(h, t), es[0], now) == Push(h, Tm.RearmOne(t, es[0], now)) by {
        assert ([h] + t.order)[1..] == t.order;
        if es[0].recurring {
          Tm.TieTail([h] + t.order, now + es[0].ms);
        }
      }
      hide Tm.RearmOne, Push;
      RearmBehind(h, Tm.RearmOne(t, es[0], now), es[1..], now);
    }
  }

  /** How many timers a sweep hands out. */
  function Count<K, C>(t: Tm.TimerSet<K, C>, now: int): (d: nat)
    ensures d <= |t.order|
  {
    if Tm.Rollover(t, now) then |t.order| else Tm.DuePrefix(t.order, now)
  }

  /** The set after k rounds of the loop. */
  function After<K(==), C>(t: Tm.TimerSet<K, C>, now: int, k: nat): Tm.TimerSet<K, C>
    requires k <= |t.order|
  {
    Tm.Rearm(t.(order := t.order[k..], previous := now), t.order[..k], now)
  }

  lemma SweepIsAfter<K, C>(t: Tm.TimerSet<K, C>, now: int)
    ensures Tm.Sweep(t, now) == (After(t, now, Count(t, now)), t.order[..Count(t, now)])
    ensures After(t, now, 0) == t.(previous := now)
  {
    assert t.order[0..] == t.order && t.order[..0] == [];
  }

  /** While fewer than `Count` timers are out, the front of the set is the next of the original ones
      and it is due; one round leads to the set after k + 1 rounds. */
  lemma RoundGoesOn<K, C>(t: Tm.TimerSet<K, C>, now: int, k: nat)
    requires Tm.Valid(t) && Tm.SweepEnds(t, now) && k < Count(t, now)
    ensures var s := After(t, now, k);
            && s.order != [] && (Tm.Rollover(t, now) || s.order[0].next <= now)
            && s.order[0] == t.order[k]
            && Tm.RearmOne(s.(order := s.order[1..]), s.order[0], now) == After(t, now, k + 1)
  {
    Tm.DuePrefixIsDue(t.order, now);
    var h, rest := t.order[k], t.(order := t.order[k + 1..], previous := now);
    var out := t.order[..k];
    assert t.(order := t.order[k..], previous := now) == Push(h, rest);
    assert forall i :: 0 <= i < k && out[i].recurring ==> h.next < now + out[i].ms;
    hide Tm.RearmOne, Tm.DuePrefix, Tm.Rearm;
    RearmBehind(h, rest, out, now);
    RearmAppend(rest, out, h, now);
    assert out + [h] == t.order[..k + 1];
    var r := Tm.Rearm(rest, out, now);
    assert ([h] + r.order)[1..] == r.order;
  }

  /** When `Count` timers are out, the loop stops. */
  lemma RoundStops<K, C>(t: Tm.TimerSet<K, C>, now: int)
    requires Tm.Valid(t) && Tm.SweepEnds(t, now)
    ensures var s := After(t, now, Count(t, now)); s.order == [] || (!Tm.Rollover(t, now) && s.order[0].next > now)
  {
    var d := Count(t, now);
    Tm.DuePrefixIsDue(t.order, now);
    hide Tm.DuePrefix, Tm.Rearm;
    Tm.RearmLater(t.(order := t.order[d..], previous := now), t.order[..d], now);
  }

  ghost predicate IsFound<C>(timers: seq<Timer<C>>, next: int, r: Option<nat>)
    reads timers
  {
    match r
    case Some(i) => i < |timers| && timers[i].next == next && forall j :: 0 <= j < i ==> timers[j].next != next
    case None => forall j :: 0 <= j < |timers| ==> timers[j].next != next
  }

  lemma FoundIs<C>(timers: seq<Timer<C>>, es: seq<Tm.Entry<Timer<C>, C>>, next: int, r: Option<nat>)
    requires |es| == |timers| && forall i :: 0 <= i < |es| ==> es[i].next == timers[i].next
    requires IsFound(timers, next, r)
    ensures Tm.Find(es, next) == r && Tm.Tie(es, next) == r.Some?
  {
    if r.Some? {
      FindFirst(es, next, r.value);
    }
  }

  ghost function Members<T>(s: seq<T>): set<T> {
    set x | x in s
  }

  /** The first position with this deadline is the one find returns. */
  lemma {:induction false} FindFirst<K, C>(es: seq<Tm.Entry<K, C>>, next: int, i: nat)
    requires i < |es| && es[i].next == next && forall j :: 0 <= j < i ==> es[j].next != next
    ensures Tm.Find(es, next) == Some(i)
  {
    if i > 0 {
      FindFirst(es[1..], next, i - 1);
    }
  }

  lemma Splice<T>(s: seq<T>, x: T, i: nat)
    requires i <= |s|
    ensures var r := s[..i] + [x] + s[i..];
            && (forall y :: y in r <==> y in s || y == x)
            && (forall j :: 0 <= j < |r| ==> r[j] == if j < i then s[j] else if j == i then x else s[j - 1])
  {
    assert s == s[..i] + s[i..];
  }

  lemma SpliceSorted<C>(s: seq<Timer<C>>, t: Timer<C>, i: nat)
    requires i <= |s| && forall j, k :: 0 <= j < k < |s| ==> s[j].next < s[k].next
    requires forall j :: 0 <= j < i ==> s[j].next < t.next
    requires forall j :: i <= j < |s| ==> s[j].next > t.next
    ensures var r := s[..i] + [t] + s[i..]; forall j, k :: 0 <= j < k < |r| ==> r[j].next < r[k].next
  {
  }

  /** Where the first deadline that is not earlier stands, it decides whether there is a tie. */
  lemma TieAt<K, C>(es: seq<Tm.Entry<K, C>>, next: int, i: nat)
    requires Tm.Sorted(es) && i <= |es|
    requires (forall j :: 0 <= j < i ==> es[j].next < next) && (i < |es| ==> es[i].next >= next)
    ensures Tm.Tie(es, next) <==> i < |es| && es[i].next == next
  {
    if i < |es| && es[i].next == next {
      FindFirst(es, next, i);
    }
  }

  /** Inserting before the first deadline that is not earlier. */
  lemma {:induction false} InsertAt<K, C>(es: seq<Tm.Entry<K, C>>, e: Tm.Entry<K, C>, i: nat)
    requires i <= |es|
    requires (forall j :: 0 <= j < i ==> es[j].next < e.next) && (i < |es| ==> es[i].next >= e.next)
    ensures Tm.Insert(es, e) == if i < |es| && es[i].next == e.next then es else es[..i] + [e] + es[i..]
  {
    hide Tm.Find;
    if i > 0 {
      InsertAt(es[1..], e, i - 1);
      ConsSplice(es, e, i);
    } else {
      assert es[..0] + [e] + es[0..] == [e] + es;
    }
  }

  lemma ConsSplice<T>(s: seq<T>, x: T, i: nat)
    requires 0 < i <= |s|
    ensures [s[0]] + s[1..] == s
    ensures [s[0]] + (s[1..][..i - 1] + [x] + s[1..][i - 1..]) == s[..i] + [x] + s[i..]
  {
    assert s[i..] == s[1..][i - 1..];
    assert s[..i] == [s[0]] + s[1..][..i - 1];
  }
}
