// Where the timeout of a call is: every unmarked call under way has one pending, a callback that is about to cancel
// belongs to the call it marked, and a fiber waits in the slot of the event its call named.

module CallTimeouts {
  import opened Base
  import opened Runtime
  import opened Invariants
  import opened WorkerSteps
  import opened WorkerTokens
  import opened WorkerTimeouts
  import opened BodyTokens
  import opened BodySteps
  import opened BodyTimeouts
  import opened CallSteps
  import opened Reachable
  import Ev = Events
  import Tm = Timers

  // ---------- pending callbacks ----------

  function Calling(cb: Callback): Work -> nat {
    (x: Work) => if x == CbWork(cb) then 1 else 0
  }

  /** How often the callback is still to be run: as an armed timer, in the queue, in the vector or the hand of a worker,
      or in a fiber made for it. */
  ghost function Pending(s: State, cb: Callback): nat {
    References(s, Calling(cb))
  }

  ghost predicate SamePending(s: State, s': State) {
    forall cb: Callback :: cb.TimeoutIo? ==> Pending(s', cb) == Pending(s, cb)
  }

  lemma NotAmongUsers(xs: seq<Waiter>, cb: Callback)
    requires cb.TimeoutIo? && Sum(xs, NotUser()) == 0
    ensures Sum(xs, InSlot(Calling(cb))) == 0
  {
    forall x | x in xs ensures InSlot(Calling(cb))(x) == 0 {
      var i :| 0 <= i < |xs| && xs[i] == x;
      SumMember(xs, i, NotUser());
    }
    SumZero(xs, InSlot(Calling(cb)));
  }

  lemma NotInSlots(contexts: seq<Ev.FdContext<nat, Callback>>, cb: Callback)
    requires cb.TimeoutIo? && SlotsOk(contexts)
    ensures Sum(contexts, Ev.Weight(InSlot(Calling(cb)))) == 0
  {
    forall x | x in contexts ensures Ev.Weight(InSlot(Calling(cb)))(x) == 0 {
      var i :| 0 <= i < |contexts| && contexts[i] == x;
      SumMember(contexts, i, Ev.Weight(NotUser()));
      NotAmongUsers(x.read.Target(), cb);
      NotAmongUsers(x.write.Target(), cb);
    }
    SumZero(contexts, Ev.Weight(InSlot(Calling(cb))));
  }

  /** An operation on the event table that handles user callbacks and fibers only. */
  lemma EventsPending(s: State, r: Ev.Result<nat, Callback>)
    requires r.Done? && SlotsOk(s.events.contexts)
    requires Sum(r.table.contexts, Ev.Weight(NotUser())) + Sum(r.woken, NotUser()) == 0
    ensures SamePending(s, WithEvents(s, r))
  {
    forall cb: Callback | cb.TimeoutIo? ensures Pending(WithEvents(s, r), cb) == Pending(s, cb) {
      NotInSlots(s.events.contexts, cb);
      NotInSlots(r.table.contexts, cb);
      NotAmongUsers(r.woken, cb);
      WithEventsTokens(s, r, Calling(cb));
    }
  }

  // ---------- steps that leave every call where it is ----------

  /** What the fibers do next stays, and fibers that were made have not begun. */
  predicate CodesStay(fibers: seq<Fiber>, fibers': seq<Fiber>) {
    && |fibers| <= |fibers'|
    && (forall g :: 0 <= g < |fibers| ==> fibers'[g].code == fibers[g].code && fibers'[g].calls == fibers[g].calls)
    && (forall g :: |fibers| <= g < |fibers'| ==> fibers'[g].code.Start? || fibers'[g].code.RunCb?)
  }

  ghost predicate Calm(s: State, s': State) {
    CodesStay(s.fibers, s'.fibers) && SamePending(s, s') && Ev.NoNewWaiter(s.events, s'.events)
  }

  lemma WorkerStepIsCalm(s: State, w: nat, op: WorkerOp)
    requires Inv(s) && w < |s.workers| && StepNext(s, w, op).Some? && FreshReports(s, Step(w, op)) && !op.Resume?
    ensures Calm(s, StepNext(s, w, op).value)
  {
    hide References, Ev.Agree, TimersOk;
    var s' := StepNext(s, w, op).value;
    FibersStay(s, w, op);
    forall cb: Callback | cb.TimeoutIo? ensures Pending(s', cb) == Pending(s, cb) {
      PlainStepTokens(s, w, op, Calling(cb));
    }
    hide Inv, StepNext;
    StepWaiters(s, w, op);
  }

  lemma StepWaiters(s: State, w: nat, op: WorkerOp)
    requires Inv(s) && w < |s.workers| && StepNext(s, w, op).Some? && FreshReports(s, Step(w, op)) && !op.Resume?
    ensures Ev.NoNewWaiter(s.events, StepNext(s, w, op).value.events)
  {
    if op.Dispatch? {
      var r := s.workers[w].pc.reports[0];
      Ev.DispatchKeeps(s.events, r, op.refused, NotUser());
      PartsOf(s);
      hide Inv;
      Ev.DispatchWaiters(s.events, r, op.refused);
      Ev.EmptiesAddsNone(
        s.events, StepNext(s, w, op).value.events, r.fd, if op.refused then Ev.NoBits else Ev.Named(r));
    } else {
      hide Inv, TakeNext, IdleMove, ExpireNext, HandNext;
      EventsStay(s, w, op);
      Ev.SameWaiters(s.events);
    }
  }

  lemma MakeCallbackIsCalm(s: State, w: nat, cb: Callback)
    requires w < |s.workers| && s.workers[w].pc.Popped? && s.workers[w].pc.task.work == CbWork(cb)
    ensures Calm(s, ResumeCallback(s, w, cb))
  {
    forall c: Callback | c.TimeoutIo? ensures Pending(ResumeCallback(s, w, cb), c) == Pending(s, c) {
      ResumeCallbackReferences(s, w, cb, Calling(c));
    }
    Ev.SameWaiters(s.events);
  }

  /** What user code does to queue, timers and events. */
  lemma BodyIsCalm(s: State, w: nat, f: nat, op: BodyOp)
    requires At(s, w, f, Body) && BodyNext(s, w, f, op).Some? && BodyNext(s, w, f, op).value.timers.limbo == map[]
    requires !op.Sleep? && !op.Enter? && !op.Finish?
    ensures Calm(s, BodyNext(s, w, f, op).value)
  {
    hide Waits, Control, TokensOk, References, Ev.NoNewWaiter;
    if op.Watch? || op.Unwatch? || op.CancelIo? || op.Close? {
      BodyEventIsCalm(s, w, f, op);
    } else {
      var s' := BodyNext(s, w, f, op).value;
      forall cb: Callback | cb.TimeoutIo? ensures Pending(s', cb) == Pending(s, cb) {
        BodyPending(s, w, f, op, cb);
      }
      Ev.SameWaiters(s.events);
    }
  }

  lemma BodyPending(s: State, w: nat, f: nat, op: BodyOp, cb: Callback)
    requires At(s, w, f, Body) && BodyNext(s, w, f, op).Some? && BodyNext(s, w, f, op).value.timers.limbo == map[]
    requires cb.TimeoutIo? && !op.Sleep? && !op.Enter? && !op.Finish?
    requires !op.Watch? && !op.Unwatch? && !op.CancelIo? && !op.Close?
    ensures Pending(BodyNext(s, w, f, op).value, cb) == Pending(s, cb)
  {
    hide Control, TokensOk, References, Tm.Cancel, Tm.Refresh, Tm.Reset, Tm.Add, Sum, Ev.Agree, Ev.AddEvent;
    hide Ev.DelEvent, Ev.CancelEvent, Ev.CancelAll, OwnedTimers, HandlesOk, FiredOk, InFlightFired;
    match op {
      case Schedule(id, thread) => ScheduleTokens(s, CbWork(UserCb(id)), thread, Calling(cb));
      case Spawn(thread) => SpawnReferences(s, thread, Calling(cb));
      case SetTimer(ms, recurring, id) => AddTimerTokens(s, ms, recurring, UserCb(id), Calling(cb));
      case DropTimer(k) => CancelTokens(s, k, Calling(cb));
      case RefreshTimer(k) => RefreshTokens(s, k, Calling(cb));
      case ResetTimer(k, ms, fromNow) => ResetTokens(s, k, ms, fromNow, Calling(cb));
    }
  }

  lemma BodyEventIsCalm(s: State, w: nat, f: nat, op: BodyOp)
    requires At(s, w, f, Body) && BodyNext(s, w, f, op).Some?
    requires op.Watch? || op.Unwatch? || op.CancelIo? || op.Close?
    ensures Calm(s, BodyNext(s, w, f, op).value)
  {
    assert BodyNext(s, w, f, op).value == WithEvents(s, EventResult(s, op));
    hide EventResult, BodyNext, References;
    EventResultKeeps(s, op);
    EventsPending(s, EventResult(s, op));
    EventResultWaiters(s, op);
  }

  lemma EventResultWaiters(s: State, op: BodyOp)
    requires Ev.Agree(s.events) && SlotsOk(s.events.contexts)
    requires op.Unwatch? || op.CancelIo? || op.Close? || (op.Watch? && |s.events.contexts| >= Ev.InitialSize)
    ensures EventResult(s, op).Done? && Ev.NoNewWaiter(s.events, EventResult(s, op).table)
  {
    hide Ev.Agree, SlotsOk, Ev.AddEvent, Ev.DelEvent, Ev.CancelEvent, Ev.CancelAll, Ev.WaiterAt;
    EventResultKeeps(s, op);
    match op
    case Watch(fd, e, id, refused) =>
      forall fd': nat, e': Ev.Event
        ensures var t' := EventResult(s, op).table;
                Ev.WaiterAt(t', fd', e').Some? ==> Ev.WaiterAt(s.events, fd', e') == Ev.WaiterAt(t', fd', e')
      {
        Ev.AddEventWaiters(s.events, fd, e, Ev.CbWaiter(UserCb(id)), refused, fd', e');
      }
    case Unwatch(fd, e, refused) => Ev.DelEventWaiters(s.events, fd, e, refused);
    case CancelIo(fd, e, refused) => Ev.CancelEventWaiters(s.events, fd, e, refused);
    case Close(fd, refused) => Ev.CancelAllWaiters(s.events, fd, refused);
  }

  lemma OutsideIsCalm(s: State, a: Action)
    requires Next(s, a).Some? && (a.Tick? || a.External? || a.StopLook? || a.Stop?)
    ensures Calm(s, Next(s, a).value)
  {
    hide References;
    var s' := Next(s, a).value;
    forall cb: Callback | cb.TimeoutIo? ensures Pending(s', cb) == Pending(s, cb) {
      OutsidePending(s, a, cb);
    }
    Ev.SameWaiters(s.events);
  }

  lemma OutsidePending(s: State, a: Action, cb: Callback)
    requires Next(s, a).Some? && (a.Tick? || a.External? || a.StopLook? || a.Stop?) && cb.TimeoutIo?
    ensures Pending(Next(s, a).value, cb) == Pending(s, cb)
  {
    if a.External? {
      SpawnReferences(s, a.thread, Calling(cb));
      ScheduleTokens(s, CbWork(UserCb(a.id)), a.thread, Calling(cb));
    }
  }

  // ---------- the invariant ----------

  /** A timeout callback knows the fd and the event of its call. */
  predicate Fits(call: Call, fd: nat, e: Ev.Event, fibers: seq<Fiber>) {
    && call.fiber < |fibers| && call.seqno < fibers[call.fiber].calls
    && var code := fibers[call.fiber].code;
    && (HasWait(code) && code.wait.call == call ==> code.wait.fd == fd && code.wait.event == e)
  }

  ghost predicate PendingFits(s: State) {
    forall cb: Callback :: cb.TimeoutIo? && Pending(s, cb) > 0 ==> Fits(cb.call, cb.fd, cb.event, s.fibers)
  }

  predicate MarkStays(call: Call, fibers: seq<Fiber>) {
    call.fiber < |fibers| ==>
      var code := fibers[call.fiber].code;
      HasWait(code) && code.wait.call == call ==> code.wait.cancelled
  }

  /** A callback that is about to cancel has marked its call, and is the only one that has. */
  ghost predicate MarksFit(fibers: seq<Fiber>) {
    && (forall h :: 0 <= h < |fibers| && fibers[h].code.Cancelling? ==>
          var c := fibers[h].code; Fits(c.call, c.fd, c.event, fibers) && MarkStays(c.call, fibers))
    && (forall h, i :: 0 <= h < i < |fibers| && fibers[h].code.Cancelling? && fibers[i].code.Cancelling?
         ==> fibers[h].code.call != fibers[i].code.call)
  }

  /** The call has armed its timer and not yet cancelled it. */
  predicate InAttempt(c: Code) {
    c.InCall? && PhaseHasTimer(c.phase) && c.wait.timeout.Some?
  }

  /** What the timer of the call will run. */
  function TimeoutOf(wait: Wait): Callback {
    TimeoutIo(wait.call, wait.fd, wait.event)
  }

  ghost predicate ArmedAt(s: State, g: nat)
    requires g < |s.fibers|
  {
    var c := s.fibers[g].code;
    InAttempt(c) && !c.wait.cancelled ==> Pending(s, TimeoutOf(c.wait)) > 0
  }

  /** An unmarked call has a timeout to come. */
  ghost predicate Armed(s: State) {
    forall g :: 0 <= g < |s.fibers| ==> ArmedAt(s, g)
  }

  predicate WaitsFor(fibers: seq<Fiber>, g: nat, fd: nat, e: Ev.Event) {
    && g < |fibers| && fibers[g].code.InCall? && fibers[g].code.phase.Registered?
    && fibers[g].code.wait.fd == fd && fibers[g].code.wait.event == e
  }

  /** A fiber is in no slot but that of the event its call named. */
  ghost predicate Home(s: State) {
    forall fd: nat, e ::
      var x := Ev.WaiterAt(s.events, fd, e); x.Some? ==> WaitsFor(s.fibers, x.value, fd, e)
  }

  ghost predicate TimeoutInv(s: State) {
    PendingFits(s) && MarksFit(s.fibers) && Armed(s) && Home(s)
  }

  lemma CalmKeeps(s: State, s': State)
    requires Inv(s) && TimeoutInv(s) && Calm(s, s')
    ensures TimeoutInv(s')
  {
    hide Pending;
    forall g | 0 <= g < |s'.fibers| ensures ArmedAt(s', g) {
      if g < |s.fibers| {
        assert ArmedAt(s, g);
      }
    }
    CalmKeepsFits(s, s');
    forall fd: nat, e | Ev.WaiterAt(s'.events, fd, e).Some?
      ensures WaitsFor(s'.fibers, Ev.WaiterAt(s'.events, fd, e).value, fd, e)
    {
      assert WaitsFor(s.fibers, Ev.WaiterAt(s.events, fd, e).value, fd, e);
    }
  }

  lemma CalmKeepsFits(s: State, s': State)
    requires PendingFits(s) && MarksFit(s.fibers) && Calm(s, s')
    ensures PendingFits(s') && MarksFit(s'.fibers)
  {
    hide Pending;
    forall cb: Callback | cb.TimeoutIo? && Pending(s', cb) > 0 ensures Fits(cb.call, cb.fd, cb.event, s'.fibers) {
      assert Fits(cb.call, cb.fd, cb.event, s.fibers);
    }
    forall h | 0 <= h < |s'.fibers| && s'.fibers[h].code.Cancelling?
      ensures var c := s'.fibers[h].code; Fits(c.call, c.fd, c.event, s'.fibers) && MarkStays(c.call, s'.fibers)
    {
      var c := s.fibers[h].code;
      assert Fits(c.call, c.fd, c.event, s.fibers) && MarkStays(c.call, s.fibers);
    }
  }

  // ---------- a step of one fiber ----------

  /** Fiber f moves on and no other does. */
  predicate OthersStay(fibers: seq<Fiber>, fibers': seq<Fiber>, f: nat) {
    && f < |fibers| == |fibers'|
    && (forall g :: 0 <= g < |fibers| && g != f ==>
          fibers'[g].code == fibers[g].code && fibers'[g].calls == fibers[g].calls)
  }

  /** The call, if the fiber is in one, is the one it was in, or a new one. */
  predicate GoesOn(x: Fiber, y: Fiber) {
    && y.calls >= x.calls && !y.code.Cancelling?
    && (HasWait(y.code) ==>
          || y.code.wait.call.seqno >= x.calls
          || (HasWait(x.code) && y.code.wait.(timer := x.code.wait.timer) == x.code.wait))
  }

  ghost predicate OwnStep(s: State, s': State, f: nat) {
    && OthersStay(s.fibers, s'.fibers, f) && GoesOn(s.fibers[f], s'.fibers[f])
    && (forall cb: Callback :: cb.TimeoutIo? && Pending(s', cb) > Pending(s, cb) ==>
          Fits(cb.call, cb.fd, cb.event, s'.fibers))
    && (forall cb: Callback :: cb.TimeoutIo? && Pending(s', cb) < Pending(s, cb) ==> cb.call.fiber == f)
    && ArmedAt(s', f)
    && (forall fd: nat, e ::
          var x := Ev.WaiterAt(s'.events, fd, e);
          x.Some? ==>
            if x.value == f then WaitsFor(s'.fibers, f, fd, e) else Ev.WaiterAt(s.events, fd, e) == x)
  }

  lemma OwnStepKeeps(s: State, s': State, f: nat)
    requires Inv(s) && TimeoutInv(s) && OwnStep(s, s', f)
    ensures TimeoutInv(s')
  {
    OwnStepKeepsFits(s, s', f);
    hide Pending;
    forall g | 0 <= g < |s'.fibers| ensures ArmedAt(s', g) {
      if g != f {
        assert ArmedAt(s, g) && FiberOk(g, s.fibers[g]);
      }
    }
    hide Inv;
    forall fd: nat, e | Ev.WaiterAt(s'.events, fd, e).Some?
      ensures WaitsFor(s'.fibers, Ev.WaiterAt(s'.events, fd, e).value, fd, e)
    {
      var g := Ev.WaiterAt(s'.events, fd, e).value;
      if g != f {
        assert WaitsFor(s.fibers, Ev.WaiterAt(s.events, fd, e).value, fd, e);
      }
    }
  }

  lemma GoesOnFits(fibers: seq<Fiber>, fibers': seq<Fiber>, f: nat, call: Call, fd: nat, e: Ev.Event)
    requires OthersStay(fibers, fibers', f) && GoesOn(fibers[f], fibers'[f]) && Fits(call, fd, e, fibers)
    ensures Fits(call, fd, e, fibers') && (MarkStays(call, fibers) ==> MarkStays(call, fibers'))
  {
  }

  lemma OwnStepKeepsFits(s: State, s': State, f: nat)
    requires PendingFits(s) && MarksFit(s.fibers) && OwnStep(s, s', f)
    ensures PendingFits(s') && MarksFit(s'.fibers)
  {
    hide Pending, Fits, MarkStays;
    forall cb: Callback | cb.TimeoutIo? && Pending(s', cb) > 0 ensures Fits(cb.call, cb.fd, cb.event, s'.fibers) {
      if Pending(s', cb) <= Pending(s, cb) {
        assert Fits(cb.call, cb.fd, cb.event, s.fibers);
        GoesOnFits(s.fibers, s'.fibers, f, cb.call, cb.fd, cb.event);
      }
    }
    forall h | 0 <= h < |s'.fibers| && s'.fibers[h].code.Cancelling?
      ensures var c := s'.fibers[h].code; Fits(c.call, c.fd, c.event, s'.fibers) && MarkStays(c.call, s'.fibers)
    {
      var c := s.fibers[h].code;
      GoesOnFits(s.fibers, s'.fibers, f, c.call, c.fd, c.event);
    }
  }

  /** A step that touches neither queued callbacks nor events. */
  lemma PlainIsOwn(s: State, s': State, f: nat)
    requires Armed(s) && OthersStay(s.fibers, s'.fibers, f) && GoesOn(s.fibers[f], s'.fibers[f])
    requires SamePending(s, s') && s'.events == s.events
    requires var x, y := s.fibers[f].code, s'.fibers[f].code;
             && (InAttempt(y) ==> InAttempt(x) && y.wait == x.wait)
             && (y == x || forall fd: nat, e :: Ev.WaiterAt(s.events, fd, e) != Some(f))
    requires Home(s)
    ensures OwnStep(s, s', f)
  {
    hide Pending, Fits;
    assert ArmedAt(s, f);
  }

  /** A fiber that is not suspended in a call is in no slot. */
  lemma NotHome(s: State, f: nat)
    requires Home(s) && f < |s.fibers| && !(s.fibers[f].code.InCall? && s.fibers[f].code.phase.Registered?)
    ensures forall fd: nat, e :: Ev.WaiterAt(s.events, fd, e) != Some(f)
  {
    forall fd: nat, e ensures Ev.WaiterAt(s.events, fd, e) != Some(f) {
      assert Ev.WaiterAt(s.events, fd, e).Some? ==> WaitsFor(s.fibers, Ev.WaiterAt(s.events, fd, e).value, fd, e);
    }
  }

  /** Nor is one that a worker has popped. */
  lemma PoppedNotHome(s: State, w: nat, f: nat)
    requires Inv(s) && w < |s.workers| && s.workers[w].pc.Popped? && s.workers[w].pc.task.work == FiberWork(f)
    ensures forall fd: nat, e :: Ev.WaiterAt(s.events, fd, e) != Some(f)
  {
    SumMember(s.workers, w, AtWorker(Waking(f)));
    assert Tokens(s, f) == Owed(s.fibers, f) && Ev.Agree(s.events);
    hide Inv, References;
    assert Sum(s.events.contexts, Ev.Weight(InSlot(Waking(f)))) == 0 by { SlotShare(s, w, f); }
    forall fd: nat, e ensures Ev.WaiterAt(s.events, fd, e) != Some(f) {
      if fd < |s.events.contexts| {
        WeightlessSlot(s, f, fd, e);
      }
    }
  }

  lemma SlotShare(s: State, w: nat, f: nat)
    requires w < |s.workers| && AtWorker(Waking(f))(s.workers[w]) == 1 && Tokens(s, f) <= 1
    ensures Sum(s.events.contexts, Ev.Weight(InSlot(Waking(f)))) == 0
  {
    SumMember(s.workers, w, AtWorker(Waking(f)));
  }

  lemma WeightlessSlot(s: State, f: nat, fd: nat, e: Ev.Event)
    requires Ev.Agree(s.events) && fd < |s.events.contexts|
    requires Sum(s.events.contexts, Ev.Weight(InSlot(Waking(f)))) == 0
    ensures s.events.contexts[fd].Slot(e).fiber != Some(f)
  {
    SumMember(s.events.contexts, fd, Ev.Weight(InSlot(Waking(f))));
    var ctx := s.events.contexts[fd];
    assert ctx.Consistent();
    var target := ctx.Slot(e).Target();
    if target != [] {
      SumMember(target, 0, InSlot(Waking(f)));
    }
  }

  lemma SetCodePending(s: State, f: nat, c: Code)
    requires f < |s.fibers| && !s.fibers[f].code.RunCb? && !c.RunCb?
    ensures SamePending(s, SetCode(s, f, c))
  {
    hide References;
    forall cb: Callback | cb.TimeoutIo? ensures Pending(SetCode(s, f, c), cb) == Pending(s, cb) {
      SetCodeReferences(s, f, c, Calling(cb));
    }
  }

  lemma SuspendPending(s: State, w: nat, f: nat, state: FiberState, c: Code)
    requires Inside(s, w, f) && !s.fibers[f].code.RunCb? && !c.RunCb?
    ensures SamePending(s, Suspend(s, w, f, state, c))
  {
    hide References;
    forall cb: Callback | cb.TimeoutIo? ensures Pending(Suspend(s, w, f, state, c), cb) == Pending(s, cb) {
      SuspendReferences(s, w, f, state, c, Calling(cb));
    }
  }

  lemma ResumeIsOwn(s: State, w: nat, f: nat)
    requires Inv(s) && TimeoutInv(s) && w < |s.workers| && s.workers[w].pc.Popped?
             && s.workers[w].pc.task.work == FiberWork(f) && ResumeFiber(s, w, f).Some?
    ensures OwnStep(s, ResumeFiber(s, w, f).value, f)
  {
    hide Inv, Pending, Home, Armed, PendingFits, MarksFit;
    ResumePending(s, w, f);
    PoppedNotHome(s, w, f);
    PlainIsOwn(s, ResumeFiber(s, w, f).value, f);
  }

  lemma ResumePending(s: State, w: nat, f: nat)
    requires Inv(s) && w < |s.workers| && s.workers[w].pc.Popped? && s.workers[w].pc.task.work == FiberWork(f)
    requires ResumeFiber(s, w, f).Some?
    ensures f < |s.fibers| && Suspended(s.fibers[f].code) && (s.fibers[f].state.Ready? || s.fibers[f].state.Term?)
    ensures SamePending(s, ResumeFiber(s, w, f).value) && FiberOk(f, s.fibers[f])
  {
    PoppedIsSuspended(s, w);
    ResumeFindsReady(s, w, f);
    assert Control(s);
    hide Inv, References, Control;
    forall cb: Callback | cb.TimeoutIo? ensures Pending(ResumeFiber(s, w, f).value, cb) == Pending(s, cb) {
      ResumeFiberReferences(s, w, f, Calling(cb));
    }
  }

  lemma SuspendIsOwn(s: State, w: nat, f: nat, state: FiberState, c: Code)
    requires TimeoutInv(s) && Inside(s, w, f) && !s.fibers[f].code.RunCb? && !c.Cancelling?
    requires c == s.fibers[f].code || (c == Over && !s.fibers[f].code.InCall?)
    ensures OwnStep(s, Suspend(s, w, f, state, c), f)
  {
    hide References;
    SuspendPending(s, w, f, state, c);
    if c == Over {
      NotHome(s, f);
    }
    PlainIsOwn(s, Suspend(s, w, f, state, c), f);
  }

  lemma SetCodeIsOwn(s: State, f: nat, c: Code)
    requires TimeoutInv(s) && f < |s.fibers| && !s.fibers[f].code.RunCb? && !c.RunCb?
    requires GoesOn(s.fibers[f], s.fibers[f].(code := c))
    requires !(s.fibers[f].code.InCall? && s.fibers[f].code.phase.Registered?)
    requires InAttempt(c) ==> InAttempt(s.fibers[f].code) && c.wait == s.fibers[f].code.wait
    ensures OwnStep(s, SetCode(s, f, c), f)
  {
    hide References;
    SetCodePending(s, f, c);
    NotHome(s, f);
    PlainIsOwn(s, SetCode(s, f, c), f);
  }

  lemma SleepIsOwn(s: State, w: nat, f: nat, ms: nat)
    requires TimeoutInv(s) && At(s, w, f, Body)
    ensures OwnStep(s, SetCode(AddTimer(s, ms, false, WakeFiber(f)), f, Asleep), f)
  {
    var s1 := AddTimer(s, ms, false, WakeFiber(f));
    assert s1.events == s.events && s1.fibers == s.fibers && Tm.Valid(s.timers);
    hide References, Control, TokensOk, Waits, Pending, Home, Armed, PendingFits, MarksFit, AddTimer;
    SleepPending(s, f, ms);
    SetCodePending(s1, f, Asleep);
    NotHome(s, f);
    PlainIsOwn(s, SetCode(s1, f, Asleep), f);
  }

  lemma SleepPending(s: State, f: nat, ms: nat)
    requires Tm.Valid(s.timers)
    ensures SamePending(s, AddTimer(s, ms, false, WakeFiber(f)))
  {
    hide References, AddTimer, Tm.Valid;
    forall cb: Callback | cb.TimeoutIo? ensures Pending(AddTimer(s, ms, false, WakeFiber(f)), cb) == Pending(s, cb) {
      AddTimerTokens(s, ms, false, WakeFiber(f), Calling(cb));
    }
  }

  lemma EnterIsOwn(s: State, w: nat, f: nat, op: BodyOp)
    requires TimeoutInv(s) && At(s, w, f, Body) && op.Enter?
    ensures OwnStep(s, BodyNext(s, w, f, op).value, f)
  {
    hide Control, TokensOk, Waits, Pending, Home, Armed, PendingFits, MarksFit;
    EnterPending(s, w, f, op);
    NotHome(s, f);
    PlainIsOwn(s, BodyNext(s, w, f, op).value, f);
  }

  lemma EnterPending(s: State, w: nat, f: nat, op: BodyOp)
    requires Inside(s, w, f) && s.fibers[f].code == Body && op.Enter?
    ensures SamePending(s, BodyNext(s, w, f, op).value)
  {
    hide Sum;
    var s' := BodyNext(s, w, f, op).value;
    forall cb: Callback | cb.TimeoutIo? ensures Pending(s', cb) == Pending(s, cb) {
      SumUpdate(s.fibers, f, s'.fibers[f], InCallback(Calling(cb)));
    }
  }

  /** The new timer is the call's own. */
  lemma ArmIsOwn(s: State, w: nat, f: nat, wait: Wait)
    requires TimeoutInv(s) && At(s, w, f, InCall(wait, Arming)) && wait.timeout.Some?
             && ArmNext(s, f, wait).timers.limbo == map[]
    ensures OwnStep(s, ArmNext(s, f, wait), f)
  {
    hide Control, TokensOk, Waits, Pending, Home, Armed, PendingFits, MarksFit;
    InsideIsRunning(s, w, f);
    ArmPending(s, w, f, wait);
    NotHome(s, f);
    assert ArmNext(s, f, wait).events == s.events;
  }

  lemma ArmPending(s: State, w: nat, f: nat, wait: Wait)
    requires At(s, w, f, InCall(wait, Arming)) && wait.timeout.Some? && ArmNext(s, f, wait).timers.limbo == map[]
    ensures forall cb: Callback :: cb.TimeoutIo? ==>
              Pending(ArmNext(s, f, wait), cb) == Pending(s, cb) + if cb == TimeoutOf(wait) then 1 else 0
  {
    var s1 := AddTimer(s, wait.timeout.value, false, TimeoutOf(wait));
    NoTie(s, wait.timeout.value, false, TimeoutOf(wait));
    assert Tm.Valid(s.timers);
    hide References, Control, TokensOk, Waits, Tm.Valid, Tm.Add;
    forall cb: Callback | cb.TimeoutIo?
      ensures Pending(s1, cb) == Pending(s, cb) + if cb == TimeoutOf(wait) then 1 else 0
    {
      AddTimerTokens(s, wait.timeout.value, false, TimeoutOf(wait), Calling(cb));
    }
    SetCodePending(s1, f, InCall(wait.(timer := Some(s.nextTimer)), Registering));
  }

  /** The slot of the event is filled iff addEvent succeeds. */
  lemma RegisterIsOwn(s: State, w: nat, f: nat, wait: Wait, refused: bool, code: int)
    requires TimeoutInv(s) && At(s, w, f, InCall(wait, Registering)) && |s.events.contexts| >= Ev.InitialSize
    ensures OwnStep(s, RegisterNext(s, f, wait, refused, code), f)
  {
    hide Pending, Control, TokensOk, Ev.Agree, SlotsOk, Ev.AddEvent, Ev.WaiterAt, TimersOk, OwnedTimers, HandlesOk;
    hide FiredOk, InFlightFired, Home, Armed, PendingFits, MarksFit;
    assert ArmedAt(s, f) by { ArmedHere(s, f); }
    var r := Ev.AddEvent(s.events, wait.fd, wait.event, Ev.FiberWaiter(f), refused);
    AddedPending(s, wait.fd, wait.event, f, refused);
    RegisterPending(s, f, wait, r, AddErrno(s, wait, code));
    NotHome(s, f);
    forall fd: nat, e
      ensures Ev.WaiterAt(r.table, fd, e) == Ev.WaiterAt(s.events, fd, e)
              || (r.ret && fd == wait.fd && e == wait.event && Ev.WaiterAt(r.table, fd, e) == Some(f))
    {
      Ev.AddEventWaiters(s.events, wait.fd, wait.event, Ev.FiberWaiter(f), refused, fd, e);
    }
  }

  lemma ArmedHere(s: State, f: nat)
    requires Armed(s) && f < |s.fibers|
    ensures ArmedAt(s, f)
  {
  }

  lemma AddedPending(s: State, fd: nat, e: Ev.Event, f: nat, refused: bool)
    requires Ev.Agree(s.events) && SlotsOk(s.events.contexts)
    ensures var r := Ev.AddEvent(s.events, fd, e, Ev.FiberWaiter(f), refused);
            r.Done? && SamePending(s, WithEvents(s, r))
  {
    hide Ev.AddEvent, References;
    Ev.AddEventKeeps(s.events, fd, e, Ev.FiberWaiter(f), refused, NotUser());
    EventsPending(s, Ev.AddEvent(s.events, fd, e, Ev.FiberWaiter(f), refused));
  }

  /** The fault flag is no reference. */
  lemma RegisterPending(s: State, f: nat, wait: Wait, r: Ev.Result<nat, Callback>, errno: Errno)
    requires f < |s.fibers| && !s.fibers[f].code.RunCb? && r.Done? && SamePending(s, WithEvents(s, r))
    ensures var s' := AfterAddEvent(s, f, wait, r, errno);
            && s'.events == r.table && SamePending(s, s')
            && s'.fibers == s.fibers[f := s.fibers[f].(code := InCall(wait, if r.ret then Registered
                else AddFailed(errno)))]
  {
    var c := InCall(wait, if r.ret then Registered else AddFailed(errno));
    SetCodePending(WithEvents(s, r), f, c);
    hide Sum;
    FaultIsNoReference(SetCode(WithEvents(s, r), f, c));
  }

  lemma FaultIsNoReference(s: State)
    ensures SamePending(s, s.(fault := true))
  {
  }

  /** The timer that is cancelled is the call's own. */
  lemma UnarmIsOwn(s: State, w: nat, f: nat, wait: Wait, phase: Phase, c: Code)
    requires TimeoutInv(s) && At(s, w, f, InCall(wait, phase)) && !phase.Registered?
    requires HasWait(c) && c.wait == wait.(timer := None) && !InAttempt(c)
    ensures OwnStep(s, UnarmNext(s, f, wait, c), f)
  {
    hide Pending, Control, TokensOk, Waits, Tm.Cancel, Home, Armed, PendingFits, MarksFit;
    InsideIsRunning(s, w, f);
    NotHome(s, f);
    if wait.timer.None? {
      SetCodePending(s, f, c);
      PlainIsOwn(s, SetCode(s, f, c), f);
    } else {
      var s1 := s.(timers := Tm.Cancel(s.timers, wait.timer.value).0);
      forall cb: Callback | cb.TimeoutIo?
        ensures Pending(s1, cb) <= Pending(s, cb) && (cb.call.fiber != f ==> Pending(s1, cb) == Pending(s, cb))
      {
        CancelPending(s, w, f, wait, phase, cb);
      }
      SetCodePending(s1, f, c);
      assert s1.events == s.events;
    }
  }

  lemma CancelPending(s: State, w: nat, f: nat, wait: Wait, phase: Phase, cb: Callback)
    requires At(s, w, f, InCall(wait, phase)) && wait.timer.Some? && cb.TimeoutIo?
    ensures var s1 := s.(timers := Tm.Cancel(s.timers, wait.timer.value).0);
            Pending(s1, cb) <= Pending(s, cb) && (cb.call.fiber != f ==> Pending(s1, cb) == Pending(s, cb))
  {
    hide Control, TokensOk, Waits, Tm.Cancel, Tm.Valid, Tm.Live, Sum;
    InsideIsRunning(s, w, f);
    OwnTimerOnly(s, f, wait);
    Tm.CancelSum(s.timers, wait.timer.value, InTimer(Calling(cb)));
  }

  // ---------- callbacks ----------

  /** A user callback or that of a sleep. */
  lemma OtherCallbackIsOwn(s: State, f: nat, cb: Callback)
    requires TimeoutInv(s) && f < |s.fibers| && s.fibers[f].code == RunCb(cb) && !cb.TimeoutIo?
    ensures OwnStep(s, CallBackNext(s, f, cb), f)
  {
    hide Home, Armed, PendingFits, MarksFit, Pending;
    OtherCallbackPending(s, f, cb);
    NotHome(s, f);
    PlainIsOwn(s, CallBackNext(s, f, cb), f);
  }

  lemma OtherCallbackPending(s: State, f: nat, cb: Callback)
    requires f < |s.fibers| && s.fibers[f].code == RunCb(cb) && !cb.TimeoutIo?
    ensures SamePending(s, CallBackNext(s, f, cb))
  {
    var s1 := SetCode(s, f, if cb.UserCb? then Body else Leaving);
    forall c: Callback | c.TimeoutIo? ensures Pending(CallBackNext(s, f, cb), c) == Pending(s, c) {
      SetCodeReferences(s, f, s1.fibers[f].code, Calling(c));
      if cb.WakeFiber? {
        ScheduleTokens(s1, FiberWork(cb.fiber), -1, Calling(c));
      }
    }
  }

  /** One run of the callback has begun, and no other. */
  lemma BegunPending(s: State, f: nat, cb: Callback, c: Code)
    requires f < |s.fibers| && s.fibers[f].code == RunCb(cb) && cb.TimeoutIo? && !c.RunCb?
    ensures Pending(s, cb) > 0
    ensures forall d: Callback :: d.TimeoutIo? ==>
              Pending(SetCode(s, f, c), d) + (if d == cb then 1 else 0) == Pending(s, d)
  {
    SumMember(s.fibers, f, InCallback(Calling(cb)));
    forall d: Callback | d.TimeoutIo?
      ensures Pending(SetCode(s, f, c), d) + (if d == cb then 1 else 0) == Pending(s, d)
    {
      SetCodeReferences(s, f, c, Calling(d));
    }
  }

  /** The call is over or marked: the callback returns. */
  lemma ReturnKeeps(s: State, f: nat, cb: Callback)
    requires Inv(s) && TimeoutInv(s) && f < |s.fibers| && s.fibers[f].code == RunCb(cb) && cb.TimeoutIo?
    requires !Unmarked(s, cb.call)
    ensures TimeoutInv(SetCode(s, f, Leaving))
  {
    hide Inv, Pending, Armed, Home, PendingFits, MarksFit;
    PartsOf(s);
    BegunPending(s, f, cb, Leaving);
    ReturnFits(s, f);
    ReturnArmed(s, f, cb);
  }

  lemma ReturnArmed(s: State, f: nat, cb: Callback)
    requires FibersOk(s.fibers) && Armed(s) && f < |s.fibers| && s.fibers[f].code == RunCb(cb) && cb.TimeoutIo?
    requires !Unmarked(s, cb.call)
    requires forall d: Callback :: d.TimeoutIo? && d != cb ==> Pending(SetCode(s, f, Leaving), d) == Pending(s, d)
    ensures Armed(SetCode(s, f, Leaving))
  {
    hide Pending;
    var s' := SetCode(s, f, Leaving);
    forall g | 0 <= g < |s'.fibers| ensures ArmedAt(s', g) {
      assert ArmedAt(s, g) && FiberOk(g, s.fibers[g]);
    }
  }

  lemma ReturnFits(s: State, f: nat)
    requires TimeoutInv(s) && f < |s.fibers| && s.fibers[f].code.RunCb?
    requires forall d: Callback :: d.TimeoutIo? ==> Pending(SetCode(s, f, Leaving), d) <= Pending(s, d)
    ensures var s' := SetCode(s, f, Leaving); PendingFits(s') && MarksFit(s'.fibers) && Home(s')
  {
    hide Pending;
    var s' := SetCode(s, f, Leaving);
    forall cb: Callback | cb.TimeoutIo? && Pending(s', cb) > 0 ensures Fits(cb.call, cb.fd, cb.event, s'.fibers) {
      assert Fits(cb.call, cb.fd, cb.event, s.fibers);
    }
    forall h | 0 <= h < |s'.fibers| && s'.fibers[h].code.Cancelling?
      ensures var c := s'.fibers[h].code; Fits(c.call, c.fd, c.event, s'.fibers) && MarkStays(c.call, s'.fibers)
    {
      var c := s.fibers[h].code;
      assert Fits(c.call, c.fd, c.event, s.fibers) && MarkStays(c.call, s.fibers);
    }
    forall fd: nat, e | Ev.WaiterAt(s'.events, fd, e).Some?
      ensures WaitsFor(s'.fibers, Ev.WaiterAt(s'.events, fd, e).value, fd, e)
    {
      assert WaitsFor(s.fibers, Ev.WaiterAt(s.events, fd, e).value, fd, e);
    }
  }

  /** The fibers after fiber f has marked the call. */
  function MarkedBy(fibers: seq<Fiber>, f: nat, call: Call, fd: nat, e: Ev.Event): seq<Fiber>
    requires f < |fibers| && call.fiber < |fibers| && fibers[call.fiber].code.InCall?
  {
    var code := fibers[call.fiber].code;
    var marked := fibers[call.fiber].(code := InCall(code.wait.(cancelled := true), code.phase));
    fibers[call.fiber := marked][f := fibers[f].(code := Cancelling(call, fd, e))]
  }

  /** The callback marks its call. */
  lemma MarkKeepsTimeouts(s: State, f: nat, call: Call, fd: nat, e: Ev.Event)
    requires Inv(s) && TimeoutInv(s) && f < |s.fibers| && s.fibers[f].code == RunCb(TimeoutIo(call, fd, e))
    requires Unmarked(s, call)
    ensures TimeoutInv(CallBackNext(s, f, TimeoutIo(call, fd, e)))
  {
    hide Inv, Pending, Armed, Home, PendingFits, MarksFit;
    PartsOf(s);
    MarkMoves(s, f, call, fd, e);
    MarkPending(s, f, call, fd, e);
    MarkFits(s, CallBackNext(s, f, TimeoutIo(call, fd, e)), f, TimeoutIo(call, fd, e));
    MarkArmed(s, CallBackNext(s, f, TimeoutIo(call, fd, e)), f, call, fd, e);
    MarkHome(s, CallBackNext(s, f, TimeoutIo(call, fd, e)), f, call, fd, e);
  }

  lemma MarkMoves(s: State, f: nat, call: Call, fd: nat, e: Ev.Event)
    requires f < |s.fibers| && s.fibers[f].code.RunCb? && Unmarked(s, call)
    ensures var s' := CallBackNext(s, f, TimeoutIo(call, fd, e));
            s'.fibers == MarkedBy(s.fibers, f, call, fd, e) && s'.events == s.events
  {
  }

  lemma MarkArmed(s: State, s': State, f: nat, call: Call, fd: nat, e: Ev.Event)
    requires FibersOk(s.fibers) && Armed(s) && f < |s.fibers| && s.fibers[f].code.RunCb? && Unmarked(s, call)
    requires s'.fibers == MarkedBy(s.fibers, f, call, fd, e)
    requires forall d: Callback :: d.TimeoutIo? && d != TimeoutIo(call, fd, e) ==> Pending(s', d) == Pending(s, d)
    ensures Armed(s')
  {
    hide Pending;
    forall g | 0 <= g < |s'.fibers| ensures ArmedAt(s', g) {
      assert ArmedAt(s, g) && FiberOk(g, s.fibers[g]);
    }
  }

  lemma MarkHome(s: State, s': State, f: nat, call: Call, fd: nat, e: Ev.Event)
    requires Home(s) && f < |s.fibers| && s.fibers[f].code.RunCb? && Unmarked(s, call)
    requires s'.fibers == MarkedBy(s.fibers, f, call, fd, e) && s'.events == s.events
    ensures Home(s')
  {
    forall fd: nat, e | Ev.WaiterAt(s'.events, fd, e).Some?
      ensures WaitsFor(s'.fibers, Ev.WaiterAt(s'.events, fd, e).value, fd, e)
    {
      assert WaitsFor(s.fibers, Ev.WaiterAt(s.events, fd, e).value, fd, e);
    }
  }

  lemma MarkPending(s: State, f: nat, call: Call, fd: nat, e: Ev.Event)
    requires f < |s.fibers| && s.fibers[f].code == RunCb(TimeoutIo(call, fd, e)) && Unmarked(s, call)
    ensures Pending(s, TimeoutIo(call, fd, e)) > 0
    ensures forall d: Callback :: d.TimeoutIo? ==>
              Pending(CallBackNext(s, f, TimeoutIo(call, fd, e)), d) + (if d == TimeoutIo(call, fd, e) then 1 else 0)
              == Pending(s, d)
  {
    hide References;
    var code := s.fibers[call.fiber].code;
    var marked := InCall(code.wait.(cancelled := true), code.phase);
    SetCodePending(s, call.fiber, marked);
    var s1 := SetCode(s, call.fiber, marked);
    BegunPending(s1, f, TimeoutIo(call, fd, e), Cancelling(call, fd, e));
    assert CallBackNext(s, f, TimeoutIo(call, fd, e)) == SetCode(s1, f, Cancelling(call, fd, e));
  }

  lemma MarkFits(s: State, s': State, f: nat, cb: Callback)
    requires PendingFits(s) && MarksFit(s.fibers) && f < |s.fibers| && s.fibers[f].code == RunCb(cb) && cb.TimeoutIo?
    requires Unmarked(s, cb.call) && Pending(s, cb) > 0
    requires s'.fibers == MarkedBy(s.fibers, f, cb.call, cb.fd, cb.event)
    requires forall d: Callback :: d.TimeoutIo? ==> Pending(s', d) <= Pending(s, d)
    ensures PendingFits(s') && MarksFit(s'.fibers)
  {
    hide Pending;
    forall d: Callback | d.TimeoutIo? && Pending(s', d) > 0 ensures Fits(d.call, d.fd, d.event, s'.fibers) {
      assert Fits(d.call, d.fd, d.event, s.fibers);
    }
    assert Fits(cb.call, cb.fd, cb.event, s.fibers);
    forall h | 0 <= h < |s'.fibers| && s'.fibers[h].code.Cancelling?
      ensures var c := s'.fibers[h].code; Fits(c.call, c.fd, c.event, s'.fibers) && MarkStays(c.call, s'.fibers)
      ensures h != f ==> s'.fibers[h].code.call != cb.call
    {
      if h != f {
        var c := s.fibers[h].code;
        assert Fits(c.call, c.fd, c.event, s.fibers) && MarkStays(c.call, s.fibers);
      }
    }
  }

  lemma FireCancelIsOwn(s: State, w: nat, f: nat, call: Call, fd: nat, e: Ev.Event, refused: bool)
    requires TimeoutInv(s) && At(s, w, f, Cancelling(call, fd, e))
    ensures OwnStep(s, SetCode(WithEvents(s, Ev.CancelEvent(s.events, fd, e, refused)), f, Leaving), f)
  {
    hide Pending, Control, TokensOk, Ev.Agree, SlotsOk, Ev.CancelEvent, TimersOk, OwnedTimers, HandlesOk, FiredOk;
    hide InFlightFired, Home, Armed, PendingFits, MarksFit;
    var r := Ev.CancelEvent(s.events, fd, e, refused);
    CancelledPending(s, fd, e, refused);
    SetCodePending(WithEvents(s, r), f, Leaving);
    Ev.CancelEventWaiters(s.events, fd, e, refused);
    NotHome(s, f);
  }

  lemma CancelledPending(s: State, fd: nat, e: Ev.Event, refused: bool)
    requires Ev.Agree(s.events) && SlotsOk(s.events.contexts)
    ensures var r := Ev.CancelEvent(s.events, fd, e, refused); r.Done? && SamePending(s, WithEvents(s, r))
  {
    hide Ev.CancelEvent, References;
    Ev.CancelEventKeeps(s.events, fd, e, refused, NotUser());
    EventsPending(s, Ev.CancelEvent(s.events, fd, e, refused));
  }

  // ---------- every step ----------

  lemma CallIsOwn(s: State, w: nat, f: nat, wait: Wait, phase: Phase, op: BodyOp)
    requires TimeoutInv(s) && At(s, w, f, InCall(wait, phase)) && CallNext(s, w, f, wait, phase, op).Some?
             && CallNext(s, w, f, wait, phase, op).value.timers.limbo == map[]
    ensures OwnStep(s, CallNext(s, w, f, wait, phase, op).value, f)
  {
    hide TimeoutInv, Control, TokensOk, Waits, OwnStep, RegisterNext, UnarmNext;
    match phase {
      case Trying => SetCodeIsOwn(s, f, TryCode(wait, op.result));
      case Arming =>
        if wait.timeout.None? {
          SetCodeIsOwn(s, f, InCall(wait, Registering));
        } else {
          ArmIsOwn(s, w, f, wait);
        }
      case Registering => RegisterIsOwn(s, w, f, wait, op.refused, op.code);
      case Registered => SuspendIsOwn(s, w, f, Ready, InCall(wait, Registered));
      case Resumed => UnarmIsOwn(s, w, f, wait, phase, InCall(wait.(timer := None), Checking));
      case AddFailed(errno) =>
        UnarmIsOwn(s, w, f, wait, phase,
            Exiting(wait.(timer := None), if wait.kind == ReadWrite then NotAdded(errno) else Probed(op.soOk)));
      case Checking => SetCodeIsOwn(s, f, CheckCode(wait, op.soOk));
    }
  }

  /** The steps of user code that are not calm. */
  predicate Restless(op: BodyOp) {
    op.Sleep? || op.Enter? || op.Finish?
  }

  lemma BodyIsOwn(s: State, w: nat, f: nat, op: BodyOp)
    requires TimeoutInv(s) && At(s, w, f, Body) && BodyNext(s, w, f, op).Some? && Restless(op)
    ensures OwnStep(s, BodyNext(s, w, f, op).value, f)
  {
    hide TimeoutInv, Control, TokensOk, Waits, OwnStep, AddTimer, Suspend;
    match op {
      case Sleep(ms) => SleepIsOwn(s, w, f, ms);
      case Enter(_, _, _, _) => EnterIsOwn(s, w, f, op);
      case Finish => SuspendIsOwn(s, w, f, Term, Over);
    }
  }

  lemma ExecKeepsTimeouts(s: State, w: nat, op: BodyOp)
    requires Inv(s) && TimeoutInv(s) && w < |s.workers| && ExecNext(s, w, op).Some?
             && ExecNext(s, w, op).value.timers.limbo == map[]
    ensures TimeoutInv(ExecNext(s, w, op).value)
  {
    hide Inv, TimeoutInv, Control, TokensOk, Waits, OwnStep, Calm, BodyNext, CallNext, CallBackNext, Ev.CancelEvent;
    hide WithEvents;
    PartsOf(s);
    var f := s.workers[w].pc.fiber;
    match s.fibers[f].code {
      case Body =>
        if Restless(op) {
          BodyIsOwn(s, w, f, op);
          OwnStepKeeps(s, ExecNext(s, w, op).value, f);
        } else {
          BodyIsCalm(s, w, f, op);
          CalmKeeps(s, ExecNext(s, w, op).value);
        }
      case RunCb(cb) => CallBackKeepsTimeouts(s, f, cb);
      case Cancelling(call, fd, e) =>
        FireCancelIsOwn(s, w, f, call, fd, e, op.refused);
        OwnStepKeeps(s, ExecNext(s, w, op).value, f);
      case Leaving =>
        SuspendIsOwn(s, w, f, Term, Over);
        OwnStepKeeps(s, ExecNext(s, w, op).value, f);
      case Asleep =>
        SuspendIsOwn(s, w, f, Ready, Asleep);
        OwnStepKeeps(s, ExecNext(s, w, op).value, f);
      case InCall(wait, phase) =>
        CallIsOwn(s, w, f, wait, phase, op);
        OwnStepKeeps(s, ExecNext(s, w, op).value, f);
      case Exiting(_, _) =>
        SetCodeIsOwn(s, f, Body);
        OwnStepKeeps(s, ExecNext(s, w, op).value, f);
      case _ =>
    }
  }

  lemma CallBackKeepsTimeouts(s: State, f: nat, cb: Callback)
    requires Inv(s) && TimeoutInv(s) && f < |s.fibers| && s.fibers[f].code == RunCb(cb)
    ensures TimeoutInv(CallBackNext(s, f, cb))
  {
    hide Inv, TimeoutInv, OwnStep, SetCode;
    if !cb.TimeoutIo? {
      OtherCallbackIsOwn(s, f, cb);
      OwnStepKeeps(s, CallBackNext(s, f, cb), f);
    } else if Unmarked(s, cb.call) {
      MarkKeepsTimeouts(s, f, cb.call, cb.fd, cb.event);
    } else {
      ReturnKeeps(s, f, cb);
    }
  }

  lemma StepKeepsTimeouts(s: State, w: nat, op: WorkerOp)
    requires Inv(s) && TimeoutInv(s) && w < |s.workers| && StepNext(s, w, op).Some? && FreshReports(s, Step(w, op))
    ensures TimeoutInv(StepNext(s, w, op).value)
  {
    hide Inv, TimeoutInv, OwnStep, Calm, FreshReports, IdleMove, TakeNext, ExpireNext, HandNext, DispatchNext;
    hide ResumeFiber, ResumeCallback;
    if !op.Resume? {
      WorkerStepIsCalm(s, w, op);
      CalmKeeps(s, StepNext(s, w, op).value);
    } else if s.workers[w].pc.task.work.FiberWork? {
      ResumeIsOwn(s, w, s.workers[w].pc.task.work.fiber);
      OwnStepKeeps(s, StepNext(s, w, op).value, s.workers[w].pc.task.work.fiber);
    } else {
      MakeCallbackIsCalm(s, w, s.workers[w].pc.task.work.cb);
      CalmKeeps(s, StepNext(s, w, op).value);
    }
  }

  /** Every admissible step keeps an unmarked call its timeout. */
  lemma NextKeepsTimeouts(s: State, a: Action)
    requires Inv(s) && TimeoutInv(s) && Next(s, a).Some? && Admissible(s, a)
    ensures TimeoutInv(Next(s, a).value)
  {
    hide Inv, TimeoutInv, Calm, StepNext, ExecNext, FreeDeadlines, FreshReports;
    NoneLeftOutIff(s, a);
    match a {
      case Step(w, op) => StepKeepsTimeouts(s, w, op);
      case Exec(w, op) => ExecKeepsTimeouts(s, w, op);
      case _ =>
        OutsideIsCalm(s, a);
        CalmKeeps(s, Next(s, a).value);
    }
  }

  lemma InitialTimeouts(n: nat, now: int, splitStop: bool)
    ensures TimeoutInv(Initial(n, now, splitStop))
  {
    hide Pending;
    forall cb: Callback ensures Pending(Initial(n, now, splitStop), cb) == 0 {
      InitialPending(n, now, splitStop, cb);
    }
  }

  lemma InitialPending(n: nat, now: int, splitStop: bool, cb: Callback)
    ensures Pending(Initial(n, now, splitStop), cb) == 0
  {
    Ev.EmptyTableWeighsNothing(InSlot(Calling(cb)));
    SumZero(Initial(n, now, splitStop).workers, AtWorker(Calling(cb)));
  }

  lemma {:induction false} RunKeepsTimeouts(s: State, actions: seq<Action>)
    requires Inv(s) && TimeoutInv(s) && Runs(s, actions)
    ensures Inv(Final(s, actions)) && TimeoutInv(Final(s, actions))
    decreases |actions|
  {
    hide Inv, TimeoutInv, Next, Admissible;
    if actions != [] {
      NextKeepsInv(s, actions[0]);
      NextKeepsTimeouts(s, actions[0]);
      RunKeepsTimeouts(Next(s, actions[0]).value, actions[1..]);
    }
  }
}
