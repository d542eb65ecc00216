// Every step of a task fiber keeps the event table, the timer set and the condition timers.

module BodyTimeouts {
  import opened Base
  import opened TaskQueue
  import opened Runtime
  import opened Invariants
  import opened WorkerTimeouts
  import opened BodyTokens
  import opened BodySteps
  import Ev = Events
  import Tm = Timers

  // ---------- operations on the timer set ----------

  lemma AddTimersOk(s: State, ms: nat, recurring: bool, cb: Callback)
    requires TimersOk(s.timers, s.nextTimer, s.now) && AddTimer(s, ms, recurring, cb).timers.limbo == map[]
    requires recurring ==> cb.UserCb? && ms > 0
    ensures var s' := AddTimer(s, ms, recurring, cb); TimersOk(s'.timers, s'.nextTimer, s'.now)
  {
    var e := Tm.Entry(s.nextTimer, s.now + ms, ms, recurring, cb);
    NoTie(s, ms, recurring, cb);
    Tm.AddFront(s.timers, e, s.now);
    Tm.AddMembers(s.timers, e);
  }

  /** One new entry beside entries that were there before. */
  lemma NewEntry(order: seq<Entry>, order': seq<Entry>, e: Entry, fibers: seq<Fiber>, nextTimer: nat)
    requires OwnedTimers(order, fibers) && HandlesOk(order, fibers, nextTimer)
    requires OwnedTimer(e, fibers) && forall f :: 0 <= f < |fibers| ==> OwnHandle(fibers[f], e)
    requires forall i :: 0 <= i < |order'| ==> order'[i] == e || exists j :: 0 <= j < |order| && order[j] == order'[i]
    ensures OwnedTimers(order', fibers) && HandlesOk(order', fibers, nextTimer)
  {
    forall i | 0 <= i < |order'| ensures OwnedTimer(order'[i], fibers) {
      if order'[i] != e {
        var j :| 0 <= j < |order| && order[j] == order'[i];
      }
    }
    forall f, i | 0 <= f < |fibers| && 0 <= i < |order'| ensures OwnHandle(fibers[f], order'[i]) {
      if order'[i] != e {
        var j :| 0 <= j < |order| && order[j] == order'[i];
        assert OwnHandle(fibers[f], order[j]);
      }
    }
  }

  /** The next handle is nobody's yet. */
  lemma NextHandleIsNew(order: seq<Entry>, fibers: seq<Fiber>, nextTimer: nat, e: Entry)
    requires HandlesOk(order, fibers, nextTimer) && e.key == nextTimer
    ensures HandlesOk(order, fibers, nextTimer + 1) && forall f :: 0 <= f < |fibers| ==> OwnHandle(fibers[f], e)
  {
    forall f | 0 <= f < |fibers| ensures HandleMade(fibers[f], nextTimer + 1) && OwnHandle(fibers[f], e) {
      assert HandleMade(fibers[f], nextTimer);
    }
  }

  /** A new timer that belongs to no call. */
  lemma AddPlainTimer(s: State, ms: nat, recurring: bool, cb: Callback)
    requires Waits(s) && AddTimer(s, ms, recurring, cb).timers.limbo == map[]
    requires recurring ==> cb.UserCb? && ms > 0
    requires !cb.TimeoutIo?
    ensures Waits(AddTimer(s, ms, recurring, cb))
  {
    hide BodyNext, CallNext, ExecNext, StepNext, Next, IdleMove, TakeNext, ResumeFiber, ResumeCallback, ExpireNext;
    hide HandNext, DispatchNext, CallBackNext, Ev.Agree, Ev.Weight, SlotsOk;
    var e := Tm.Entry(s.nextTimer, s.now + ms, ms, recurring, cb);
    AddTimersOk(s, ms, recurring, cb);
    Tm.AddMembers(s.timers, e);
    NextHandleIsNew(s.timers.order, s.fibers, s.nextTimer, e);
    NewEntry(s.timers.order, Tm.Add(s.timers, e).order, e, s.fibers, s.nextTimer + 1);
  }

  lemma CancelWaits(s: State, k: nat)
    requires Waits(s)
    ensures Waits(s.(timers := Tm.Cancel(s.timers, k).0))
    ensures forall i :: 0 <= i < |Tm.Cancel(s.timers, k).0.order| ==> Tm.Cancel(s.timers, k).0.order[i].key != k
  {
    var timers := Tm.Cancel(s.timers, k).0;
    Tm.CancelFront(s.timers, k, s.now);
    Tm.CancelMembers(s.timers, k);
    Tm.CancelSum(s.timers, k, InTimer(Waking(0)));
    KeepsEntries(s, timers);
  }

  /** A set whose timers were all there before, up to the deadline and the period of user timers. */
  predicate FromBefore(e: Entry, d: Entry) {
    || e == d
    || (e.key == d.key && e.cb == d.cb && e.cb.UserCb? && e.recurring == d.recurring && (e.recurring ==> e.ms > 0))
  }

  lemma KeepsEntries(s: State, timers: TimerSet)
    requires Waits(s) && Tm.FrontInv(timers, s.now) && timers.limbo == map[]
    requires forall i :: 0 <= i < |timers.order| ==>
               exists j :: 0 <= j < |s.timers.order| && FromBefore(timers.order[i], s.timers.order[j])
    ensures Waits(s.(timers := timers))
  {
    forall i | 0 <= i < |timers.order|
      ensures
        && timers.order[i].key < s.nextTimer
        && (timers.order[i].recurring ==> timers.order[i].cb.UserCb? && timers.order[i].ms > 0)
        && OwnedTimer(timers.order[i], s.fibers)
        && forall f :: 0 <= f < |s.fibers| ==> OwnHandle(s.fibers[f], timers.order[i])
    {
      var j :| 0 <= j < |s.timers.order| && FromBefore(timers.order[i], s.timers.order[j]);
      assert OwnedTimer(s.timers.order[j], s.fibers);
      assert forall f :: 0 <= f < |s.fibers| ==> OwnHandle(s.fibers[f], s.timers.order[j]);
    }
  }

  lemma RefreshWaits(s: State, k: nat)
    requires Waits(s) && UserHandle(s, k) && Tm.Refresh(s.timers, k, s.now).0.limbo == map[]
    ensures Waits(s.(timers := Tm.Refresh(s.timers, k, s.now).0))
  {
    var timers := Tm.Refresh(s.timers, k, s.now).0;
    Tm.RefreshFront(s.timers, k, s.now);
    forall i | 0 <= i < |timers.order|
      ensures exists j :: 0 <= j < |s.timers.order| && FromBefore(timers.order[i], s.timers.order[j])
    {
      var j := Tm.RefreshMembers(s.timers, k, s.now, i);
      Tm.LiveMeans(s.timers, timers.order[i].key, s.timers.order[j]);
      assert FromBefore(timers.order[i], s.timers.order[j]);
    }
    KeepsEntries(s, timers);
  }

  lemma ResetWaits(s: State, k: nat, ms: nat, fromNow: bool)
    requires Waits(s) && UserHandle(s, k) && Tm.Reset(s.timers, k, ms, fromNow, s.now).0.limbo == map[]
    requires Tm.Live(s.timers, k).Some? && Tm.Live(s.timers, k).value.recurring ==> ms > 0
    ensures Waits(s.(timers := Tm.Reset(s.timers, k, ms, fromNow, s.now).0))
  {
    var timers := Tm.Reset(s.timers, k, ms, fromNow, s.now).0;
    Tm.ResetFront(s.timers, k, ms, fromNow, s.now);
    forall i | 0 <= i < |timers.order|
      ensures exists j :: 0 <= j < |s.timers.order| && FromBefore(timers.order[i], s.timers.order[j])
    {
      var j := Tm.ResetMembers(s.timers, k, ms, fromNow, s.now, i);
      Tm.LiveMeans(s.timers, timers.order[i].key, s.timers.order[j]);
      assert FromBefore(timers.order[i], s.timers.order[j]);
    }
    KeepsEntries(s, timers);
  }

  // ---------- changes of one fiber ----------

  lemma SetCodeWaits(s: State, f: nat, c: Code)
    requires Waits(s) && f < |s.fibers| && SameWait(s.fibers[f], s.fibers[f].(code := c))
    requires c.RunCb? ==> CbFired(c.cb, s.fired)
    ensures Waits(SetCode(s, f, c))
  {
    SameWaitKeeps(s, f, s.fibers[f].(code := c));
    FiberKeepsFired(s.fibers, f, s.fibers[f].(code := c), s.fired);
  }

  lemma SuspendWaits(s: State, w: nat, f: nat, state: FiberState, c: Code)
    requires Waits(s) && w < |s.workers| && f < |s.fibers| && SameWait(s.fibers[f], s.fibers[f].(code := c))
             && !c.RunCb?
    ensures Waits(Suspend(s, w, f, state, c))
  {
    var s' := Suspend(s, w, f, state, c);
    SameWaitKeeps(s, f, s'.fibers[f]);
    FiberKeepsFired(s.fibers, f, s'.fibers[f], s.fired);
    WorkerKeepsFired(s.workers, w, s'.workers[w], s.fired);
  }

  lemma PushWaits(s: State, work: Work, thread: int)
    requires Waits(s) && (work.CbWork? ==> CbFired(work.cb, s.fired))
    ensures Waits(s.(queue := s.queue + [Task(work, thread)]))
  {
  }

  lemma SpawnWaits(s: State, thread: int)
    requires Waits(s)
    ensures Waits(s.(fibers := s.fibers + [Fiber(Ready, None, Start, 0)],
                     queue := s.queue + [Task(FiberWork(|s.fibers|), thread)]))
  {
    hide Ev.Agree, Ev.Weight, SlotsOk;
    var fibers := s.fibers + [Fiber(Ready, None, Start, 0)];
    assert forall i :: 0 <= i < |s.timers.order| ==>
        OwnedTimer(s.timers.order[i], s.fibers) && OwnedTimer(s.timers.order[i], fibers);
    assert forall c :: c in s.fired ==> FiredInTime(c, s.fibers, s.now) && FiredInTime(c, fibers, s.now);
    PushWaits(s, FiberWork(|s.fibers|), thread);
  }

  lemma EnterWaits(s: State, w: nat, f: nat, op: BodyOp)
    requires At(s, w, f, Body) && op.Enter?
    ensures Waits(BodyNext(s, w, f, op).value)
  {
    hide Ev.AddEvent, Ev.DelEvent, Ev.CancelEvent, Ev.CancelAll, Ev.Dispatch, Ev.Agree, Ev.Weight, SlotsOk;
    hide Tm.FrontInv, Tm.Valid, TokensOk, References, Owed, Holders, FibersOk, Counts, TermOk;
    var fibers := BodyNext(s, w, f, op).value.fibers;
    forall i | 0 <= i < |s.timers.order| ensures OwnedTimer(s.timers.order[i], fibers) {
      assert OwnedTimer(s.timers.order[i], s.fibers);
    }
    forall g, i | 0 <= g < |fibers| && 0 <= i < |s.timers.order| ensures OwnHandle(fibers[g], s.timers.order[i]) {
      assert OwnHandle(s.fibers[g], s.timers.order[i]);
    }
    forall g | 0 <= g < |fibers| ensures HandleMade(fibers[g], s.nextTimer) {
      assert HandleMade(s.fibers[g], s.nextTimer);
    }
    forall c | c in s.fired ensures FiredInTime(c, fibers, s.now) {
      assert FiredInTime(c, s.fibers, s.now);
    }
    FiberKeepsFired(s.fibers, f, fibers[f], s.fired);
  }

  function EventResult(s: State, op: BodyOp): Ev.Result<nat, Callback>
    requires op.Unwatch? || op.CancelIo? || op.Close? || (op.Watch? && |s.events.contexts| >= Ev.InitialSize)
  {
    match op
    case Watch(fd, e, id, refused) => Ev.AddEvent(s.events, fd, e, Ev.CbWaiter(UserCb(id)), refused)
    case Unwatch(fd, e, refused) => Ev.DelEvent(s.events, fd, e, refused)
    case CancelIo(fd, e, refused) => Ev.CancelEvent(s.events, fd, e, refused)
    case Close(fd, refused) => Ev.CancelAll(s.events, fd, refused)
  }

  lemma EventResultKeeps(s: State, op: BodyOp)
    requires Ev.Agree(s.events) && SlotsOk(s.events.contexts)
    requires op.Unwatch? || op.CancelIo? || op.Close? || (op.Watch? && |s.events.contexts| >= Ev.InitialSize)
    ensures var r := EventResult(s, op);
            r.Done? && Ev.Agree(r.table) && Sum(r.table.contexts, Ev.Weight(NotUser())) + Sum(r.woken, NotUser()) == 0
  {
    hide Ev.AddEvent, Ev.DelEvent, Ev.CancelEvent, Ev.CancelAll, Ev.Agree, Ev.Weight;
    match op
    case Watch(fd, e, id, refused) => Ev.AddEventKeeps(s.events, fd, e, Ev.CbWaiter(UserCb(id)), refused, NotUser());
    case Unwatch(fd, e, refused) => Ev.DelEventKeeps(s.events, fd, e, refused, NotUser());
    case CancelIo(fd, e, refused) => Ev.CancelEventKeeps(s.events, fd, e, refused, NotUser());
    case Close(fd, refused) => Ev.CancelAllKeeps(s.events, fd, refused, NotUser());
  }

  lemma BodyEventWaits(s: State, w: nat, f: nat, op: BodyOp)
    requires Waits(s) && w < |s.workers| && f < |s.fibers| && BodyNext(s, w, f, op).Some?
    requires op.Watch? || op.Unwatch? || op.CancelIo? || op.Close?
    ensures Waits(BodyNext(s, w, f, op).value)
  {
    assert BodyNext(s, w, f, op).value == WithEvents(s, EventResult(s, op));
    hide EventResult, BodyNext, WithEvents;
    EventResultKeeps(s, op);
    WithEventsWaits(s, EventResult(s, op));
  }

  /** The operations on the user's own timers. */
  lemma BodyTimerWaits(s: State, w: nat, f: nat, op: BodyOp)
    requires At(s, w, f, Body) && BodyNext(s, w, f, op).Some?
    requires op.SetTimer? || op.DropTimer? || op.RefreshTimer? || op.ResetTimer?
    requires BodyNext(s, w, f, op).value.timers.limbo == map[]
    requires op.SetTimer? && op.recurring ==> op.ms > 0
    requires op.ResetTimer? && Tm.Live(s.timers, op.key).Some? && Tm.Live(s.timers, op.key).value.recurring
             ==> op.newMs > 0
    ensures Waits(BodyNext(s, w, f, op).value)
  {
    hide Waits, Tm.Cancel, Tm.Refresh, Tm.Reset, Tm.Add;
    match op {
      case SetTimer(ms, recurring, id) => AddPlainTimer(s, ms, recurring, UserCb(id));
      case DropTimer(k) => CancelWaits(s, k);
      case RefreshTimer(k) => RefreshWaits(s, k);
      case ResetTimer(k, ms, fromNow) => ResetWaits(s, k, ms, fromNow);
    }
  }

  lemma BodyKeepsWaits(s: State, w: nat, f: nat, op: BodyOp)
    requires At(s, w, f, Body) && BodyNext(s, w, f, op).Some?
    requires BodyNext(s, w, f, op).value.timers.limbo == map[]
    requires op.SetTimer? && op.recurring ==> op.ms > 0
    requires op.ResetTimer? && Tm.Live(s.timers, op.key).Some? && Tm.Live(s.timers, op.key).value.recurring
             ==> op.newMs > 0
    ensures Waits(BodyNext(s, w, f, op).value)
  {
    hide Inv, Ev.Agree, Ev.Weight, SlotsOk, Tm.FrontInv, Tm.Valid, TimersOk, OwnedTimers, HandlesOk, FiredOk;
    hide InFlightFired, Holders, FibersOk, Counts, TermOk;
    InsideIsRunning(s, w, f);
    hide Waits, Tm.Cancel, Tm.Refresh, Tm.Reset, Tm.Add, Ev.AddEvent, Ev.DelEvent, Ev.CancelEvent, Ev.CancelAll;
    hide Suspend, SetCode, WithEvents;
    match op {
      case Schedule(id, thread) => PushWaits(s, CbWork(UserCb(id)), thread);
      case Spawn(thread) => SpawnWaits(s, thread);
      case Sleep(ms) =>
        AddPlainTimer(s, ms, false, WakeFiber(f));
        SetCodeWaits(AddTimer(s, ms, false, WakeFiber(f)), f, Asleep);
      case Enter(_, _, _, _) => EnterWaits(s, w, f, op);
      case Finish => SuspendWaits(s, w, f, Term, Over);
      case Watch(_, _, _, _) => BodyEventWaits(s, w, f, op);
      case Unwatch(_, _, _) => BodyEventWaits(s, w, f, op);
      case CancelIo(_, _, _) => BodyEventWaits(s, w, f, op);
      case Close(_, _) => BodyEventWaits(s, w, f, op);
      case _ => BodyTimerWaits(s, w, f, op);
    }
  }
}
