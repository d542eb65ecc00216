// Quiescent shutdown: what is left when every idle fiber has terminated.

module Shutdown {
  import opened Base
  import opened TaskQueue
  import opened Runtime
  import opened Invariants
  import opened Reachable
  import opened WorkerSteps
  import Ev = Events
  import Tm = Timers

  /** The stages of stopping() that worker x has behind it, for good or in its current call. */
  predicate PastTimers(x: Worker) {
    x.idleTerm || x.pc.SawNoTimer? || x.pc.SawNoEvent?
  }

  predicate PastEvents(x: Worker) {
    x.idleTerm || x.pc.SawNoEvent?
  }

  ghost predicate AllPastTimers(workers: seq<Worker>) {
    forall w :: 0 <= w < |workers| ==> PastTimers(workers[w])
  }

  ghost predicate AllPastEvents(workers: seq<Worker>) {
    forall w :: 0 <= w < |workers| ==> PastEvents(workers[w])
  }

  /** The idle fiber of every worker has terminated. */
  ghost predicate AllTerminated(workers: seq<Worker>) {
    forall w :: 0 <= w < |workers| ==> workers[w].idleTerm
  }

  /** When every worker is past a stage of stopping(), what that stage looked at is still empty. */
  ghost predicate StopInv(s: State) {
    && |s.workers| > 0
    && (forall w :: 0 <= w < |s.workers| && s.workers[w].idleTerm ==> s.stopping)
    && (s.splitStop ==>
          forall w :: 0 <= w < |s.workers| && s.workers[w].idleTerm ==> s.workers[w].pc in {IdleOut, Scan, Exited})
    && (!s.splitStop ==>
          forall w :: 0 <= w < |s.workers| ==> !s.workers[w].pc.SawNoTimer? && !s.workers[w].pc.SawNoEvent?)
    && (AllPastTimers(s.workers) ==> s.timers.order == [])
    && (AllPastEvents(s.workers) ==> s.events.pending == 0)
    && (AllTerminated(s.workers) ==> s.queue == [] && s.active == 0)
  }

  /** With the three reads of stopping() taken separately: a worker whose idle fiber has terminated finds
      no further task at the top of run(). */
  predicate NoLatePop(s: State, a: Action) {
    match a
    case Step(w, Take) => s.splitStop && w < |s.workers| && s.workers[w].idleTerm ==> FirstEligible(s.queue, w).None?
    case _ => true
  }

  /** One worker is not past the first stage: nothing is claimed. */
  lemma OneStillBusy(s: State, s': State, w: nat)
    requires StopInv(s) && w < |s.workers| == |s'.workers| && s'.workers == s.workers[w := s'.workers[w]]
    requires s'.splitStop == s.splitStop && (s.stopping ==> s'.stopping)
    requires !PastTimers(s'.workers[w])
    ensures StopInv(s')
  {
    assert !AllPastTimers(s'.workers) && !AllPastEvents(s'.workers) && !AllTerminated(s'.workers);
  }

  /** Only with an atomic stopping(): worker w has terminated and runs a task, another one has not terminated. */
  lemma OtherStillBusy(s: State, s': State, w: nat)
    requires StopInv(s) && w < |s.workers| == |s'.workers| && s'.workers == s.workers[w := s'.workers[w]]
    requires s'.splitStop == s.splitStop && !s.splitStop && (s.stopping ==> s'.stopping)
    requires s.workers[w].idleTerm && !AllTerminated(s.workers)
    requires HoldsTask(s'.workers[w].pc) || s'.workers[w].pc.Scan?
    ensures StopInv(s')
  {
    var v :| 0 <= v < |s.workers| && !s.workers[v].idleTerm;
    assert v != w && s'.workers[v] == s.workers[v] && !PastTimers(s'.workers[v]);
  }

  /** A worker that holds a task keeps the stages of the others from being final. */
  lemma HolderKeepsStop(s: State, s': State, w: nat)
    requires Inv(s) && StopInv(s) && w < |s.workers| == |s'.workers| && s'.workers == s.workers[w := s'.workers[w]]
    requires HoldsTask(s.workers[w].pc) && s'.workers[w].idleTerm == s.workers[w].idleTerm
    requires HoldsTask(s'.workers[w].pc) || s'.workers[w].pc.Scan?
    requires s'.splitStop == s.splitStop && s'.stopping == s.stopping
    ensures StopInv(s')
  {
    hide Ev.Agree, Ev.Weight, SlotsOk, Tm.FrontInv, Tm.Valid, Sum, TimersOk, OwnedTimers, HandlesOk, FiredOk;
    hide InFlightFired;
    if !s.workers[w].idleTerm {
      OneStillBusy(s, s', w);
    } else {
      SumMember(s.workers, w, TaskCount());
      assert s.active >= 1;
      OtherStillBusy(s, s', w);
    }
  }

  /** Worker w keeps a task in hand and the rest of the worker state stays. */
  predicate StillHolds(s: State, s': State, w: nat)
    requires w < |s.workers|
  {
    && |s'.workers| == |s.workers| && s'.workers == s.workers[w := s'.workers[w]]
    && s'.workers[w].idleTerm == s.workers[w].idleTerm && HoldsTask(s'.workers[w].pc)
    && s'.splitStop == s.splitStop && s'.stopping == s.stopping
  }

  lemma BodyStillHolds(s: State, w: nat, f: nat, op: BodyOp)
    requires w < |s.workers| && s.workers[w].pc.Run? && f < |s.fibers| && BodyNext(s, w, f, op).Some?
    ensures StillHolds(s, BodyNext(s, w, f, op).value, w)
  {
    hide Ev.AddEvent, Ev.DelEvent, Ev.CancelEvent, Ev.CancelAll, Tm.Cancel, Tm.Refresh, Tm.Reset, Tm.Add;
  }

  lemma CallStillHolds(s: State, w: nat, f: nat, wait: Wait, phase: Phase, op: BodyOp)
    requires w < |s.workers| && s.workers[w].pc.Run? && f < |s.fibers| && CallNext(s, w, f, wait, phase, op).Some?
    ensures StillHolds(s, CallNext(s, w, f, wait, phase, op).value, w)
  {
    hide TryCode, CheckCode, Ev.AddEvent, Tm.Cancel, Tm.Add;
    if phase.Registering? {
      RegisterStillHolds(s, w, f, wait, op.refused, op.code);
    }
  }

  lemma RegisterStillHolds(s: State, w: nat, f: nat, wait: Wait, refused: bool, code: int)
    requires w < |s.workers| && s.workers[w].pc.Run? && f < |s.fibers| && |s.events.contexts| >= Ev.InitialSize
    ensures StillHolds(s, RegisterNext(s, f, wait, refused, code), w)
  {
    hide Ev.AddEvent;
  }

  lemma ExecStillHolds(s: State, w: nat, op: BodyOp)
    requires w < |s.workers| && ExecNext(s, w, op).Some?
    ensures s.workers[w].pc.Run? && StillHolds(s, ExecNext(s, w, op).value, w)
  {
    hide BodyNext, CallNext, CallBackNext, Ev.CancelEvent;
    var f := s.workers[w].pc.fiber;
    match s.fibers[f].code {
      case Body => BodyStillHolds(s, w, f, op);
      case InCall(wait, phase) => CallStillHolds(s, w, f, wait, phase, op);
      case RunCb(cb) => CallBackStillHolds(s, w, f, cb);
      case _ =>
    }
  }

  lemma CallBackStillHolds(s: State, w: nat, f: nat, cb: Callback)
    requires w < |s.workers| && s.workers[w].pc.Run? && f < |s.fibers|
    ensures StillHolds(s, CallBackNext(s, f, cb), w)
  {
  }

  lemma TakeKeepsStop(s: State, w: nat)
    requires Inv(s) && StopInv(s) && w < |s.workers| && s.workers[w].pc.Scan? && NoLatePop(s, Step(w, Take))
    ensures StopInv(TakeNext(s, w))
  {
    hide Inv;
    var s' := TakeNext(s, w);
    if !s.workers[w].idleTerm {
      OneStillBusy(s, s', w);
    } else if FirstEligible(s.queue, w).Some? {
      OtherStillBusy(s, s', w);
    } else {
      SameStages(s, s', w);
    }
  }

  /** The worker moves on within its stage and what the stages looked at stays. */
  lemma SameStages(s: State, s': State, w: nat)
    requires StopInv(s) && w < |s.workers| == |s'.workers| && s'.workers == s.workers[w := s'.workers[w]]
    requires s.workers[w].idleTerm && s'.workers[w].idleTerm && s'.workers[w].pc in {IdleOut, Scan, Exited}
    requires s'.splitStop == s.splitStop && s'.stopping == s.stopping
    requires s'.timers.order == s.timers.order && s'.events.pending == s.events.pending && s'.queue == s.queue
             && s'.active == s.active
    ensures StopInv(s')
  {
    assert forall v :: 0 <= v < |s.workers| ==>
      (PastTimers(s'.workers[v]) ==> PastTimers(s.workers[v]))
          && (PastEvents(s'.workers[v]) ==> PastEvents(s.workers[v]))
          && (s'.workers[v].idleTerm ==> s.workers[v].idleTerm);
  }

  lemma IdleMoveKeepsStop(s: State, w: nat, op: WorkerOp)
    requires Inv(s) && StopInv(s) && w < |s.workers| && IdleMove(s, s.workers[w], op).Some?
    ensures var m := IdleMove(s, s.workers[w], op).value;
            StopInv(s.(workers := s.workers[w := m.worker], timers := m.timers))
  {
    hide Ev.Agree, Ev.Weight, SlotsOk, Sum, TimersOk, OwnedTimers, HandlesOk, FiredOk, InFlightFired;
    var m := IdleMove(s, s.workers[w], op).value;
    var s' := s.(workers := s.workers[w := m.worker], timers := m.timers);
    IdleMoveStaysIdle(s, s.workers[w], op);
    hide Inv;
    assert s'.timers.order == s.timers.order;
    if !PastTimers(m.worker) {
      OneStillBusy(s, s', w);
    } else {
      assert forall v :: 0 <= v < |s.workers| && v != w ==> s'.workers[v] == s.workers[v];
      assert s'.workers[w] == m.worker;
      if m.worker.pc.SawNoTimer? {
        assert !AllPastEvents(s'.workers) && !AllTerminated(s'.workers);
      } else if m.worker.pc.SawNoEvent? {
        assert !AllTerminated(s'.workers);
        assert AllPastTimers(s'.workers) ==> AllPastTimers(s.workers);
      } else {
        EndKeepsStop(s, s', w, op);
      }
    }
  }

  /** The idle fiber of w ends. */
  lemma EndKeepsStop(s: State, s': State, w: nat, op: WorkerOp)
    requires StopInv(s) && w < |s.workers| && IdleMove(s, s.workers[w], op).Some?
             && IdleMove(s, s.workers[w], op).value.worker == Ended
    requires !s.workers[w].idleTerm
    requires s' == s.(workers := s.workers[w := Ended], timers := IdleMove(s, s.workers[w], op).value.timers)
    ensures StopInv(s')
  {
    assert op.CheckAll? || op.CheckQueue?;
    assert forall v :: 0 <= v < |s.workers| && v != w ==> s'.workers[v] == s.workers[v];
    if op.CheckQueue? {
      assert AllPastTimers(s'.workers) ==> AllPastTimers(s.workers);
      assert AllPastEvents(s'.workers) ==> AllPastEvents(s.workers);
    }
  }

  /** Steps inside the idle loop with a vector in hand. */
  lemma CarryKeepsStop(s: State, s': State, w: nat)
    requires StopInv(s) && TermOk(s.workers) && w < |s.workers| == |s'.workers|
             && s'.workers == s.workers[w := s'.workers[w]]
    requires (s.workers[w].pc.Expiring? || s.workers[w].pc.Carrying?) && s'.workers[w].pc.Carrying?
    requires s'.workers[w].idleTerm == s.workers[w].idleTerm && s'.splitStop == s.splitStop && s'.stopping == s.stopping
    ensures StopInv(s')
  {
    OneStillBusy(s, s', w);
  }

  lemma ResumeKeepsStop(s: State, w: nat)
    requires Inv(s) && StopInv(s) && w < |s.workers| && StepNext(s, w, Resume).Some?
             && !StepNext(s, w, Resume).value.fault
    ensures StopInv(StepNext(s, w, Resume).value)
  {
    hide Inv;
    var task := s.workers[w].pc.task;
    if task.work.FiberWork? {
      HolderKeepsStop(s, ResumeFiber(s, w, task.work.fiber).value, w);
    } else {
      HolderKeepsStop(s, ResumeCallback(s, w, task.work.cb), w);
    }
  }

  lemma LeaveIdleKeepsStop(s: State, w: nat)
    requires StopInv(s) && w < |s.workers| && s.workers[w].pc.IdleOut?
    ensures StopInv(Goto(s, w, Scan).(idle := s.idle - 1))
  {
    var s' := Goto(s, w, Scan).(idle := s.idle - 1);
    if s.workers[w].idleTerm { SameStages(s, s', w); } else { OneStillBusy(s, s', w); }
  }

  lemma LoopStepKeepsStop(s: State, w: nat, op: WorkerOp)
    requires Inv(s) && StopInv(s) && w < |s.workers| && StepNext(s, w, op).Some? && NoLatePop(s, Step(w, op))
    requires op.Take? || op.Retire? || op.LeaveIdle?
    ensures StopInv(StepNext(s, w, op).value)
  {
    hide Inv, NoLatePop, StopInv, TakeNext;
    match op {
      case Take => TakeKeepsStop(s, w);
      case Retire => HolderKeepsStop(s, Goto(s, w, Scan).(active := s.active - 1), w);
      case LeaveIdle => LeaveIdleKeepsStop(s, w);
    }
  }

  lemma CarryStepKeepsStop(s: State, w: nat, op: WorkerOp)
    requires TermOk(s.workers) && StopInv(s) && w < |s.workers| && StepNext(s, w, op).Some?
    requires op.Expire? || op.Hand? || op.Dispatch?
    ensures StopInv(StepNext(s, w, op).value)
  {
    hide TermOk, StopInv, Tm.Sweep, Ev.AndDispatch;
    CarryKeepsStop(s, StepNext(s, w, op).value, w);
  }

  lemma IdleStepKeepsStop(s: State, w: nat, op: WorkerOp)
    requires Inv(s) && StopInv(s) && w < |s.workers| && StepNext(s, w, op).Some?
    requires !op.Take? && !op.Retire? && !op.LeaveIdle? && !op.Expire? && !op.Hand? && !op.Dispatch? && !op.Resume?
    ensures StopInv(StepNext(s, w, op).value)
  {
    hide Inv, StopInv, IdleMove;
    IdleMoveKeepsStop(s, w, op);
  }

  lemma StepKeepsStop(s: State, w: nat, op: WorkerOp)
    requires Inv(s) && StopInv(s) && w < |s.workers| && StepNext(s, w, op).Some? && NoLatePop(s, Step(w, op))
    requires !StepNext(s, w, op).value.fault
    ensures StopInv(StepNext(s, w, op).value)
  {
    hide StepNext, StopInv, NoLatePop;
    if op.Resume? {
      ResumeKeepsStop(s, w);
    } else if op.Take? || op.Retire? || op.LeaveIdle? {
      LoopStepKeepsStop(s, w, op);
    } else if op.Expire? || op.Hand? || op.Dispatch? {
      CarryStepKeepsStop(s, w, op);
    } else {
      IdleStepKeepsStop(s, w, op);
    }
  }

  lemma NextHasNoFault(s: State, a: Action)
    requires Next(s, a).Some? && Inv(Next(s, a).value)
    ensures !Next(s, a).value.fault
  {
  }

  lemma NextKeepsStop(s: State, a: Action)
    requires Inv(s) && StopInv(s) && Next(s, a).Some? && Admissible(s, a) && NoLatePop(s, a)
    ensures StopInv(Next(s, a).value)
  {
    hide Control, Ev.AddEvent, Ev.DelEvent, Ev.CancelEvent, Ev.CancelAll, Ev.Dispatch, Tm.FrontInv, Tm.Valid, Sum;
    hide Runs, Final, Admissible, Initial;
    NextKeepsInv(s, a);
    NextHasNoFault(s, a);
    hide Inv, StepNext, ExecNext;
    match a {
      case Step(w, op) =>
        hide StopInv, NoLatePop;
        StepKeepsStop(s, w, op);
      case Exec(w, op) =>
        hide StopInv;
        ExecStillHolds(s, w, op);
        HolderKeepsStop(s, ExecNext(s, w, op).value, w);
      case _ => OutsideKeepsStop(s, a);
    }
  }

  lemma OutsideKeepsStop(s: State, a: Action)
    requires StopInv(s) && Next(s, a).Some? && |s.workers| > 0 && (a.Tick? || a.External? || a.StopLook? || a.Stop?)
    ensures StopInv(Next(s, a).value)
  {
    assert a.External? ==> s.workers[0].idleTerm ==> s.stopping;
  }

  ghost predicate NoLatePops(s: State, actions: seq<Action>)
    decreases |actions|
  {
    actions == [] || Next(s, actions[0]).None?
    || (NoLatePop(s, actions[0]) && NoLatePops(Next(s, actions[0]).value, actions[1..]))
  }

  lemma {:induction false} RunKeepsStop(s: State, actions: seq<Action>)
    requires Inv(s) && StopInv(s) && Runs(s, actions) && NoLatePops(s, actions)
    ensures Inv(Final(s, actions)) && StopInv(Final(s, actions))
    decreases |actions|
  {
    hide BodyNext, CallNext, ExecNext, StepNext, Next, IdleMove, TakeNext, ResumeFiber, ResumeCallback, ExpireNext;
    hide HandNext, DispatchNext, CallBackNext, Inv;
    if actions != [] {
      NextKeepsInv(s, actions[0]);
      NextKeepsStop(s, actions[0]);
      RunKeepsStop(Next(s, actions[0]).value, actions[1..]);
    }
  }

  /** Nothing is queued, armed, registered, carried or running, and every task fiber has run to its end. */
  ghost predicate Quiescent(s: State) {
    && s.queue == [] && s.timers.order == [] && s.timers.limbo == map[]
    && (forall fd :: 0 <= fd < |s.events.contexts| ==> s.events.contexts[fd].events.Empty())
    && s.events.interest == map[]
    && (forall w :: 0 <= w < |s.workers| ==> s.workers[w].pc in {IdleOut, Scan, Exited})
    && (forall f :: 0 <= f < |s.fibers| ==> s.fibers[f].state.Term?)
  }

  lemma NothingPending(s: State)
    requires Inv(s) && s.events.pending == 0
    ensures forall fd :: 0 <= fd < |s.events.contexts| ==> s.events.contexts[fd].events.Empty()
    ensures s.events.interest == map[]
    ensures forall f: nat :: Sum(s.events.contexts, Ev.Weight(InSlot(Waking(f)))) == 0
  {
    forall fd | 0 <= fd < |s.events.contexts| ensures s.events.contexts[fd].events.Empty() {
      SumMember(s.events.contexts, fd, Ev.BitCount<nat, Callback>());
    }
    forall f: nat ensures Sum(s.events.contexts, Ev.Weight(InSlot(Waking(f)))) == 0 {
      SumZero(s.events.contexts, Ev.Weight(InSlot(Waking(f))));
    }
  }

  /** No suspended fiber can be left when no reference to one is left. */
  lemma NoTokenNoFiber(s: State, f: nat)
    requires Inv(s) && s.queue == [] && s.timers.order == [] && s.events.pending == 0 && f < |s.fibers|
    requires forall w :: 0 <= w < |s.workers| ==> s.workers[w].pc in {IdleOut, Scan, Exited}
    ensures s.fibers[f].state.Term?
  {
    NothingPending(s);
    SumZero(s.workers, AtWorker(Waking(f)));
    forall x | x in s.fibers ensures InCallback(Waking(f))(x) == 0 {
      var g :| 0 <= g < |s.fibers| && s.fibers[g] == x;
      assert FiberOk(g, s.fibers[g]);
    }
    SumZero(s.fibers, InCallback(Waking(f)));
    assert Tokens(s, f) == Owed(s.fibers, f);
    assert FiberOk(f, s.fibers[f]);
  }

  lemma TerminatedIsQuiescent(s: State)
    requires Inv(s) && StopInv(s) && AllTerminated(s.workers)
    ensures Quiescent(s)
  {
    assert AllPastTimers(s.workers) && AllPastEvents(s.workers);
    NothingPending(s);
    forall w | 0 <= w < |s.workers| ensures s.workers[w].pc in {IdleOut, Scan, Exited} {
      SumMember(s.workers, w, TaskCount());
    }
    forall f | 0 <= f < |s.fibers| ensures s.fibers[f].state.Term? {
      NoTokenNoFiber(s, f);
    }
  }

  lemma InitialStop(n: nat, now: int, splitStop: bool)
    requires n > 0
    ensures StopInv(Initial(n, now, splitStop))
  {
    var s := Initial(n, now, splitStop);
    assert s.workers[0] == Worker(Scan, false);
  }

  /** Quiescent shutdown with stopping() read in one step: in every interleaving of n workers, once the idle
      fiber of every worker has terminated nothing is left anywhere and every task has finished. */
  lemma QuiescentShutdown(n: nat, now: int, actions: seq<Action>)
    requires n > 0 && Runs(Initial(n, now, false), actions)
    requires AllTerminated(Final(Initial(n, now, false), actions).workers)
    ensures Quiescent(Final(Initial(n, now, false), actions))
  {
    hide BodyNext, CallNext, ExecNext, StepNext, Next, IdleMove, TakeNext, ResumeFiber, ResumeCallback, ExpireNext;
    hide HandNext, DispatchNext, CallBackNext;
    var s := Initial(n, now, false);
    InitialInv(n, now, false);
    InitialStop(n, now, false);
    AtomicHasNoLatePop(s, actions);
    RunKeepsStop(s, actions);
    TerminatedIsQuiescent(Final(s, actions));
  }

  lemma SplitStopStays(s: State, a: Action)
    requires Next(s, a).Some?
    ensures Next(s, a).value.splitStop == s.splitStop
  {
    hide Ev.Dispatch, Tm.Sweep, Tm.GetNext, IdleMove, ExecNext;
    if a.Exec? {
      ExecStillHolds(s, a.w, a.body);
    }
  }

  lemma {:induction false} AtomicHasNoLatePop(s: State, actions: seq<Action>)
    requires !s.splitStop
    ensures NoLatePops(s, actions)
    decreases |actions|
  {
    if actions != [] && Next(s, actions[0]).Some? {
      SplitStopStays(s, actions[0]);
      hide Next, Inv;
      AtomicHasNoLatePop(Next(s, actions[0]).value, actions[1..]);
    }
  }

  /** The same with the three reads of stopping() as written, as long as no worker picks up a task after its
      own idle fiber has terminated. */
  lemma QuiescentShutdownSplit(n: nat, now: int, actions: seq<Action>)
    requires n > 0 && Runs(Initial(n, now, true), actions) && NoLatePops(Initial(n, now, true), actions)
    requires AllTerminated(Final(Initial(n, now, true), actions).workers)
    ensures Quiescent(Final(Initial(n, now, true), actions))
  {
    InitialInv(n, now, true);
    InitialStop(n, now, true);
    RunKeepsStop(Initial(n, now, true), actions);
    TerminatedIsQuiescent(Final(Initial(n, now, true), actions));
  }

  /** An idle fiber that stopped early strands nothing: while any work is left, some worker has not terminated. */
  lemma WorkKeepsAWorker(n: nat, now: int, actions: seq<Action>)
    requires n > 0 && Runs(Initial(n, now, false), actions)
    ensures var s := Final(Initial(n, now, false), actions);
            !Quiescent(s) ==> exists w :: 0 <= w < |s.workers| && !s.workers[w].idleTerm
  {
    var s := Final(Initial(n, now, false), actions);
    if AllTerminated(s.workers) {
      QuiescentShutdown(n, now, actions);
    }
  }
}
