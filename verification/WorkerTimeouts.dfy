// The steps of a worker keep the event table, the timer set and the bookkeeping of condition timers.

module WorkerTimeouts {
  import opened Base
  import opened TaskQueue
  import opened Runtime
  import opened Invariants
  import opened WorkerSteps
  import opened WorkerTokens
  import Ev = Events
  import Tm = Timers

  /** The part of the invariant about events, timers and callbacks in flight. */
  ghost predicate Waits(s: State) {
    && Ev.Agree(s.events) && SlotsOk(s.events.contexts)
    && TimersOk(s.timers, s.nextTimer, s.now)
    && OwnedTimers(s.timers.order, s.fibers) && HandlesOk(s.timers.order, s.fibers, s.nextTimer)
    && FiredOk(s.fired, s.fibers, s.now)
    && InFlightFired(s.queue, s.workers, s.fibers, s.fired)
  }

  lemma {:induction false} QueuedFired(woken: seq<Waiter>, fired: set<Call>)
    requires Sum(woken, NotUser()) == 0
    ensures forall i :: 0 <= i < |Queued(woken)| ==> TaskFired(Queued(woken)[i], fired)
  {
    if woken != [] {
      QueuedFired(woken[1..], fired);
      assert forall i :: 0 < i < |Queued(woken)| ==> Queued(woken)[i] == Queued(woken[1..])[i - 1];
    }
  }

  lemma {:induction false} CallbacksAt(es: seq<Entry>)
    ensures |CallbacksOf(es)| == |es| && forall i :: 0 <= i < |es| ==> CallbacksOf(es)[i] == es[i].cb
  {
    if es != [] {
      CallbacksAt(es[1..]);
    }
  }

  /** More calls have fired. */
  lemma FiredGrows(queue: seq<RtTask>, workers: seq<Worker>, fibers: seq<Fiber>, fired: set<Call>, more: set<Call>)
    requires InFlightFired(queue, workers, fibers, fired)
    ensures InFlightFired(queue, workers, fibers, fired + more)
  {
    assert forall w :: 0 <= w < |workers| ==> WorkerFired(workers[w], fired) && WorkerFired(workers[w], fired + more);
  }

  lemma PopKeepsFired(queue: seq<RtTask>, i: nat, fired: set<Call>)
    requires i < |queue| && forall j :: 0 <= j < |queue| ==> TaskFired(queue[j], fired)
    ensures forall j :: 0 <= j < |Without(queue, i)| ==> TaskFired(Without(queue, i)[j], fired)
  {
    forall j | 0 <= j < |Without(queue, i)| ensures TaskFired(Without(queue, i)[j], fired) {
      assert TaskFired(queue[if j < i then j else j + 1], fired);
    }
  }

  lemma WorkerKeepsFired(workers: seq<Worker>, w: nat, y: Worker, fired: set<Call>)
    requires w < |workers| && WorkerFired(y, fired) && forall v :: 0 <= v < |workers| ==> WorkerFired(workers[v], fired)
    ensures var workers' := workers[w := y]; forall v :: 0 <= v < |workers'| ==> WorkerFired(workers'[v], fired)
  {
  }

  lemma TakeWaits(s: State, w: nat)
    requires Waits(s) && w < |s.workers|
    ensures Waits(TakeNext(s, w))
  {
    hide Inv, Ev.Agree, Ev.Weight, SlotsOk;
    match FirstEligible(s.queue, w) {
      case Some(i) =>
        assert TaskFired(s.queue[i], s.fired);
        PopKeepsFired(s.queue, i, s.fired);
        WorkerKeepsFired(s.workers, w, s.workers[w].(pc := Popped(s.queue[i])), s.fired);
      case None =>
        WorkerKeepsFired(s.workers, w, TakeNext(s, w).workers[w], s.fired);
    }
  }

  /** The wait of the fiber, if any, is the same in its new code. */
  predicate SameWait(x: Fiber, y: Fiber) {
    && y.calls == x.calls
    && (HasWait(x.code) <==> HasWait(y.code))
    && (HasWait(x.code) ==>
          && y.code.wait == x.code.wait
          && (x.code.InCall? && x.code.wait.timer.Some? ==> y.code.InCall?))
  }

  lemma SameWaitKeeps(s: State, f: nat, y: Fiber)
    requires OwnedTimers(s.timers.order, s.fibers) && HandlesOk(s.timers.order, s.fibers, s.nextTimer)
             && FiredOk(s.fired, s.fibers, s.now)
    requires f < |s.fibers| && SameWait(s.fibers[f], y)
    ensures var fibers := s.fibers[f := y];
            OwnedTimers(s.timers.order, fibers) && HandlesOk(s.timers.order, fibers, s.nextTimer)
                && FiredOk(s.fired, fibers, s.now)
  {
    var fibers := s.fibers[f := y];
    forall i | 0 <= i < |s.timers.order| ensures OwnedTimer(s.timers.order[i], fibers) {
      assert OwnedTimer(s.timers.order[i], s.fibers);
    }
    forall g, i | 0 <= g < |fibers| && 0 <= i < |s.timers.order| ensures OwnHandle(fibers[g], s.timers.order[i]) {
      assert OwnHandle(s.fibers[g], s.timers.order[i]);
    }
    forall g | 0 <= g < |fibers| ensures HandleMade(fibers[g], s.nextTimer) {
      assert HandleMade(s.fibers[g], s.nextTimer);
    }
    forall c | c in s.fired ensures FiredInTime(c, fibers, s.now) {
      assert FiredInTime(c, s.fibers, s.now);
    }
    assert EnteredBefore(s.fibers[f], s.now);
  }

  lemma FiberKeepsFired(fibers: seq<Fiber>, f: nat, y: Fiber, fired: set<Call>)
    requires f < |fibers| && (y.code.RunCb? ==> CbFired(y.code.cb, fired))
    requires forall g :: 0 <= g < |fibers| && fibers[g].code.RunCb? ==> CbFired(fibers[g].code.cb, fired)
    ensures var fibers' := fibers[f := y];
            forall g :: 0 <= g < |fibers'| && fibers'[g].code.RunCb? ==> CbFired(fibers'[g].code.cb, fired)
  {
  }

  lemma ResumeFiberWaits(s: State, w: nat, f: nat)
    requires Waits(s) && Control(s) && w < |s.workers| && f < |s.fibers| && Suspended(s.fibers[f].code)
             && ResumeFiber(s, w, f).Some?
    ensures Waits(ResumeFiber(s, w, f).value)
  {
    hide Inv;
    var s' := ResumeFiber(s, w, f).value;
    assert FiberOk(f, s.fibers[f]);
    ResumeFindsReady(s, w, f);
    SameWaitKeeps(s, f, s'.fibers[f]);
    FiberKeepsFired(s.fibers, f, s'.fibers[f], s.fired);
    WorkerKeepsFired(s.workers, w, s'.workers[w], s.fired);
  }

  lemma ResumeCallbackWaits(s: State, w: nat, cb: Callback)
    requires Waits(s) && w < |s.workers| && s.workers[w].pc.Popped? && s.workers[w].pc.task.work == CbWork(cb)
    ensures Waits(ResumeCallback(s, w, cb))
  {
    hide Ev.Agree, SlotsOk, TimersOk;
    var s' := ResumeCallback(s, w, cb);
    assert WorkerFired(s.workers[w], s.fired);
    WorkerKeepsFired(s.workers, w, s'.workers[w], s.fired);
    assert forall i :: 0 <= i < |s.timers.order| ==>
        OwnedTimer(s.timers.order[i], s.fibers) && OwnedTimer(s.timers.order[i], s'.fibers);
    assert forall c :: c in s.fired ==> FiredInTime(c, s.fibers, s.now) && FiredInTime(c, s'.fibers, s.now);
  }

  /** The worker takes nothing in hand, and the timers are looked at, if anything. */
  lemma CalmMoveWaits(s: State, w: nat, m: Move)
    requires Waits(s) && w < |s.workers| && InIdle(m.worker.pc) && !m.worker.pc.Carrying?
    requires m.timers == s.timers || m.timers == Tm.GetNext(s.timers, s.now).0
    ensures Waits(s.(workers := s.workers[w := m.worker], timers := m.timers))
  {
    Tm.GetNextFront(s.timers, s.now);
  }

  lemma IdleMoveWaits(s: State, w: nat, op: WorkerOp)
    requires Waits(s) && TermOk(s.workers) && w < |s.workers| && IdleMove(s, s.workers[w], op).Some?
    ensures var m := IdleMove(s, s.workers[w], op).value;
            Waits(s.(workers := s.workers[w := m.worker], timers := m.timers))
  {
    IdleMoveStaysIdle(s, s.workers[w], op);
    hide IdleMove, Waits;
    CalmMoveWaits(s, w, IdleMove(s, s.workers[w], op).value);
  }

  /** Timers handed out by a sweep had their deadline. */
  lemma HandedInTime(s: State, i: nat)
    requires Waits(s) && Tm.SweepEnds(s.timers, s.now) && i < |Tm.Sweep(s.timers, s.now).1|
    requires Tm.Sweep(s.timers, s.now).1[i].cb.TimeoutIo?
    ensures FiredInTime(Tm.Sweep(s.timers, s.now).1[i].cb.call, s.fibers, s.now)
    requires FibersOk(s.fibers)
  {
    Tm.SweepHandsOutTheDue(s.timers, s.now);
    var e := Tm.Sweep(s.timers, s.now).1[i];
    assert e == s.timers.order[i];
    assert OwnedTimer(s.timers.order[i], s.fibers);
    assert FiberOk(e.cb.call.fiber, s.fibers[e.cb.call.fiber]);
  }

  lemma ExpireTimers(s: State)
    requires Waits(s) && Tm.SweepEnds(s.timers, s.now) && Tm.Sweep(s.timers, s.now).0.limbo == map[]
    ensures var timers := Tm.Sweep(s.timers, s.now).0;
            && TimersOk(timers, s.nextTimer, s.now) && OwnedTimers(timers.order, s.fibers)
            && HandlesOk(timers.order, s.fibers, s.nextTimer)
  {
    var timers := Tm.Sweep(s.timers, s.now).0;
    Tm.SweepFront(s.timers, s.now);
    forall i | 0 <= i < |timers.order|
      ensures
        && timers.order[i].key < s.nextTimer
        && (timers.order[i].recurring ==> timers.order[i].cb.UserCb? && timers.order[i].ms > 0)
        && OwnedTimer(timers.order[i], s.fibers)
        && forall f :: 0 <= f < |s.fibers| ==> OwnHandle(s.fibers[f], timers.order[i])
    {
      var j := Tm.SweepMembers(s.timers, s.now, i);
      assert OwnedTimer(s.timers.order[j], s.fibers);
      assert forall f :: 0 <= f < |s.fibers| ==> OwnHandle(s.fibers[f], s.timers.order[j]);
    }
  }

  lemma ExpireWaits(s: State, w: nat)
    requires Waits(s) && FibersOk(s.fibers) && w < |s.workers| && s.workers[w].pc.Expiring?
    requires Tm.SweepEnds(s.timers, s.now) && Tm.Sweep(s.timers, s.now).0.limbo == map[]
    ensures Waits(ExpireNext(s, w, s.workers[w].pc.reports))
  {
    var s' := ExpireNext(s, w, s.workers[w].pc.reports);
    var handed := Tm.Sweep(s.timers, s.now).1;
    ExpireTimers(s);
    forall c | c in CallsOf(handed) ensures FiredInTime(c, s.fibers, s.now) {
      var i :| 0 <= i < |handed| && handed[i].cb.TimeoutIo? && handed[i].cb.call == c;
      HandedInTime(s, i);
    }
    FiredGrows(s.queue, s.workers, s.fibers, s.fired, CallsOf(handed));
    CallbacksAt(handed);
    assert WorkerFired(s'.workers[w], s'.fired);
  }

  lemma HandWaits(s: State, w: nat)
    requires Waits(s) && w < |s.workers| && s.workers[w].pc.Carrying? && s.workers[w].pc.cbs != []
    ensures Waits(HandNext(s, w, s.workers[w].pc.cbs, s.workers[w].pc.reports))
  {
    assert WorkerFired(s.workers[w], s.fired);
  }

  /** An operation on the event table that keeps the agreement and the user callbacks. */
  lemma WithEventsWaits(s: State, r: Ev.Result<nat, Callback>)
    requires Waits(s) && r.Done? && Ev.Agree(r.table)
    requires Sum(r.table.contexts, Ev.Weight(NotUser())) + Sum(r.woken, NotUser()) == 0
    ensures Waits(WithEvents(s, r))
  {
    QueuedFired(r.woken, s.fired);
  }

  lemma DispatchWaits(s: State, w: nat, refused: bool)
    requires Waits(s) && w < |s.workers| && s.workers[w].pc.Carrying? && s.workers[w].pc.cbs == []
             && s.workers[w].pc.reports != []
    requires s.workers[w].pc.reports[0].fd < |s.events.contexts| && Ev.Fresh(s.events, s.workers[w].pc.reports[0])
    ensures Waits(DispatchNext(s, w, s.workers[w].pc.reports, refused))
  {
    hide Sum;
    var reports := s.workers[w].pc.reports;
    Ev.DispatchKeeps(s.events, reports[0], refused, NotUser());
    WithEventsWaits(Goto(s, w, Carrying([], reports[1..])), Ev.Dispatch(s.events, reports[0], refused));
  }

  lemma StepKeepsWaits(s: State, w: nat, op: WorkerOp)
    requires Waits(s) && Control(s) && TokensOk(s) && w < |s.workers| && StepNext(s, w, op).Some?
    requires FreshReports(s, Step(w, op)) && StepNext(s, w, op).value.timers.limbo == map[]
    ensures Waits(StepNext(s, w, op).value)
  {
    hide Ev.Agree, Ev.Weight, SlotsOk, Tm.Add, Tm.Cancel, Tm.Refresh, Tm.Reset, Tm.Sweep, Tm.GetNext, Tm.FrontInv;
    hide Tm.Valid, FiberOk, WaitOk, OutcomeOk, OwnedTimer, OwnHandle, HandleMade, FiredInTime;
    match op {
      case Take => TakeWaits(s, w);
      case Resume =>
        if s.workers[w].pc.task.work.FiberWork? {
          PoppedIsSuspended(s, w);
          ResumeFiberWaits(s, w, s.workers[w].pc.task.work.fiber);
        } else {
          ResumeCallbackWaits(s, w, s.workers[w].pc.task.work.cb);
        }
      case Retire =>
      case LeaveIdle =>
      case Expire => ExpireWaits(s, w);
      case Hand => HandWaits(s, w);
      case Dispatch(refused) => DispatchWaits(s, w, refused);
      case _ => IdleMoveWaits(s, w, op);
    }
  }

  lemma StepKeepsNoFault(s: State, w: nat, op: WorkerOp)
    requires Inv(s) && w < |s.workers| && StepNext(s, w, op).Some? && FreshReports(s, Step(w, op))
    ensures !StepNext(s, w, op).value.fault
  {
    hide Control, Waits, Ev.Agree, Ev.Weight, SlotsOk;
    match op {
      case Resume =>
        if s.workers[w].pc.task.work.FiberWork? {
          ResumeFindsReady(s, w, s.workers[w].pc.task.work.fiber);
        }
      case Dispatch(refused) => DispatchTokens(s, w, refused, Waking(0));
      case _ =>
    }
  }

  lemma StepKeepsInv(s: State, w: nat, op: WorkerOp)
    requires Inv(s) && w < |s.workers| && StepNext(s, w, op).Some?
    requires FreshReports(s, Step(w, op)) && StepNext(s, w, op).value.timers.limbo == map[]
    ensures Inv(StepNext(s, w, op).value)
  {
    StepKeepsControl(s, w, op);
    StepKeepsTokens(s, w, op);
    StepKeepsWaits(s, w, op);
    StepKeepsNoFault(s, w, op);
  }
}
