// Nothing gets stuck: in every reachable state each worker has a step to take, or waits for a worker that has.

module Progress {
  import opened Runtime
  import opened Invariants
  import opened Reachable
  import opened Shutdown
  import opened Guarantees
  import Ev = Events
  import Tm = Timers

  // ---------- the step a worker is at ----------

  /** What a fiber at this code does next; user code may always return. */
  function DueOp(c: Code): BodyOp {
    match c
    case RunCb(_) => CallBack
    case Cancelling(_, _, _) => FireCancel(false)
    case Asleep => Yield
    case Exiting(_, _) => Continue
    case InCall(_, Trying) => Try(Value(0))
    case InCall(_, Arming) => Arm
    case InCall(_, Registering) => Register(false, 0)
    case InCall(_, Registered) => Yield
    case InCall(_, Resumed) => Unarm(true)
    case InCall(_, AddFailed(_)) => Unarm(true)
    case InCall(_, Checking) => Check(true)
    case _ => Finish
  }

  function DueStep(s: State, w: nat): Action
    requires w < |s.workers|
  {
    match s.workers[w].pc
    case Popped(_) => Step(w, Resume)
    case Run(f) => Exec(w, if f < |s.fibers| then DueOp(s.fibers[f].code) else Finish)
    case After => Step(w, Retire)
    case IdleTop => Step(w, if s.splitStop then CheckTimers else CheckAll)
    case SawNoTimer => Step(w, CheckPending)
    case SawNoEvent => Step(w, CheckQueue)
    case Blocking => Step(w, Block)
    case Polling => Step(w, Poll([]))
    case Expiring(_) => Step(w, Expire)
    case Carrying(cbs, reports) =>
      Step(w, if cbs != [] then Hand else if reports != [] then Dispatch(false) else YieldIdle)
    case IdleOut => Step(w, LeaveIdle)
    case _ => Step(w, Take)
  }

  /** The due step is possible, and it is admissible if the deadline it inserts is free and its report is fresh. */
  ghost predicate CanMove(s: State, w: nat)
    requires w < |s.workers|
  {
    var a := DueStep(s, w);
    Next(s, a).Some? && (FreeDeadlines(s, a) && FreshReports(s, a) ==> Admissible(s, a))
  }

  /** Worker w moves, or it wants to resume a fiber whose mutex another worker holds, and that one moves. */
  ghost predicate Moves(s: State, w: nat)
    requires w < |s.workers|
  {
    || CanMove(s, w)
    || (exists v :: 0 <= v < |s.workers| && v != w && WaitsFor(s, w, v) && CanMove(s, v))
  }

  predicate WaitsFor(s: State, w: nat, v: nat)
    requires w < |s.workers| && v < |s.workers|
  {
    && s.workers[w].pc.Popped? && s.workers[w].pc.task.work.FiberWork?
    && s.workers[v].pc == Run(s.workers[w].pc.task.work.fiber)
  }

  // ---------- a further invariant ----------

  predicate InRange(reports: seq<Ev.Report>, size: nat) {
    forall i :: 0 <= i < |reports| ==> reports[i].fd < size
  }

  predicate WorkerInRange(x: Worker, size: nat) {
    match x.pc
    case Expiring(reports) => InRange(reports, size)
    case Carrying(_, reports) => InRange(reports, size)
    case _ => true
  }

  /** The fd table keeps its initial size at least, reports name fds inside it, and a worker leaves run()
      only after its idle fiber has terminated. */
  ghost predicate Lively(s: State) {
    && |s.events.contexts| >= Ev.InitialSize
    && (forall w :: 0 <= w < |s.workers| ==> WorkerInRange(s.workers[w], |s.events.contexts|))
    && (forall w :: 0 <= w < |s.workers| && s.workers[w].pc.Exited? ==> s.workers[w].idleTerm)
  }

  /** One worker changes, and the table does not shrink. */
  lemma StaysLively(s: State, s': State, w: nat)
    requires Lively(s) && w < |s.workers| == |s'.workers| && s'.workers == s.workers[w := s'.workers[w]]
    requires |s.events.contexts| <= |s'.events.contexts|
    requires WorkerInRange(s'.workers[w], |s'.events.contexts|) && (s'.workers[w].pc.Exited? ==> s'.workers[w].idleTerm)
    ensures Lively(s')
  {
    forall v | 0 <= v < |s.workers| ensures WorkerInRange(s'.workers[v], |s'.events.contexts|) {
      assert WorkerInRange(s.workers[v], |s.events.contexts|);
    }
  }

  // ---------- the due step is possible ----------

  /** No due step is a use of delEvent or gives a timer a period. */
  lemma DueIsTame(s: State, w: nat)
    requires w < |s.workers|
    ensures KeepsWaiters(s, DueStep(s, w)) && PositivePeriods(s, DueStep(s, w))
  {
  }

  lemma PossibleMoves(s: State, w: nat)
    requires w < |s.workers| && Next(s, DueStep(s, w)).Some?
    ensures CanMove(s, w)
  {
    DueIsTame(s, w);
    hide Next, DueStep, FreeDeadlines, FreshReports, KeepsWaiters, PositivePeriods;
  }

  /** The fiber a worker is inside. */
  lemma RunsCode(s: State, w: nat)
    requires Inv(s) && w < |s.workers| && s.workers[w].pc.Run?
    ensures !s.fault && s.workers[w].pc.fiber < |s.fibers|
    ensures var c := s.fibers[s.workers[w].pc.fiber].code; !c.Start? && !c.Over?
  {
    var f := s.workers[w].pc.fiber;
    assert FiberOk(f, s.fibers[f]);
  }

  lemma DueOpRuns(s: State, w: nat, f: nat)
    requires !s.fault && w < |s.workers| && s.workers[w].pc == Run(f) && f < |s.fibers|
    requires |s.events.contexts| >= Ev.InitialSize && !s.fibers[f].code.Start? && !s.fibers[f].code.Over?
    ensures ExecNext(s, w, DueOp(s.fibers[f].code)).Some?
  {
    hide CallBackNext, Ev.CancelEvent, RegisterNext, ArmNext, UnarmNext;
  }

  lemma DueExec(s: State, w: nat)
    requires Inv(s) && Lively(s) && w < |s.workers| && s.workers[w].pc.Run?
    ensures CanMove(s, w)
  {
    RunsCode(s, w);
    DueOpRuns(s, w, s.workers[w].pc.fiber);
    PossibleExec(s, w);
  }

  lemma PossibleExec(s: State, w: nat)
    requires !s.fault && w < |s.workers| && s.workers[w].pc.Run? && s.workers[w].pc.fiber < |s.fibers|
    requires ExecNext(s, w, DueOp(s.fibers[s.workers[w].pc.fiber].code)).Some?
    ensures CanMove(s, w)
  {
    hide ExecNext, DueOp;
    PossibleMoves(s, w);
  }

  /** A sweep ends: there is no rollover and recurring timers have a period. */
  lemma SweepIsDue(s: State)
    requires Inv(s)
    ensures Tm.SweepEnds(s.timers, s.now)
  {
  }

  lemma DueStepRuns(s: State, w: nat)
    requires !s.fault && Tm.SweepEnds(s.timers, s.now)
    requires w < |s.workers| && WorkerInRange(s.workers[w], |s.events.contexts|)
    requires !s.workers[w].pc.Popped? && !s.workers[w].pc.Run? && !s.workers[w].pc.Exited?
    ensures Next(s, DueStep(s, w)).Some?
  {
    hide Tm.SweepEnds, Tm.GetNext, TakeNext, ExpireNext, HandNext, DispatchNext, ExecNext;
  }

  lemma DuePop(s: State, w: nat)
    requires !s.fault && w < |s.workers| && s.workers[w].pc.Popped?
    requires var work := s.workers[w].pc.task.work;
             work.FiberWork? ==> work.fiber < |s.fibers| && s.fibers[work.fiber].holder.None?
    ensures CanMove(s, w)
  {
    assert StepNext(s, w, Resume).Some?;
    hide StepNext;
    PossibleMoves(s, w);
  }

  /** A popped fiber exists, and the holder of its mutex is inside it. */
  lemma PoppedHolder(s: State, w: nat)
    requires Inv(s) && w < |s.workers| && s.workers[w].pc.Popped? && s.workers[w].pc.task.work.FiberWork?
    ensures var f := s.workers[w].pc.task.work.fiber;
            && f < |s.fibers|
            && (s.fibers[f].holder.Some? ==>
                  s.fibers[f].holder.value < |s.workers| && s.workers[s.fibers[f].holder.value].pc == Run(f))
  {
    PoppedIsReady(s, w);
  }

  lemma EveryoneMoves(s: State, w: nat)
    requires Inv(s) && Lively(s) && w < |s.workers| && !s.workers[w].pc.Exited?
    ensures Moves(s, w)
  {
    hide BodyNext, CallNext, ExecNext, StepNext, Next, IdleMove, TakeNext, ResumeFiber, ResumeCallback, ExpireNext;
    hide HandNext, DispatchNext, CallBackNext;
    var pc := s.workers[w].pc;
    if pc.Run? {
      DueExec(s, w);
    } else if pc.Popped? {
      if pc.task.work.FiberWork? {
        PoppedHolder(s, w);
        var holder := s.fibers[pc.task.work.fiber].holder;
        if holder.Some? {
          DueExec(s, holder.value);
          assert WaitsFor(s, w, holder.value);
        } else {
          HasNoFault(s);
          DuePop(s, w);
        }
      } else {
        HasNoFault(s);
        DuePop(s, w);
      }
    } else {
      HasNoFault(s);
      SweepIsDue(s);
      DueStepRuns(s, w);
      PossibleMoves(s, w);
    }
  }

  lemma HasNoFault(s: State)
    requires Inv(s)
    ensures !s.fault
  {
  }

  // ---------- the further invariant is kept ----------

  lemma EventsStayLively(s: State, s0: State, r: Ev.Result<nat, Callback>, w: nat)
    requires Lively(s) && Ev.NotSmaller(s.events, r) && s0.events == s.events
    requires w < |s.workers| == |s0.workers| && s0.workers == s.workers[w := s0.workers[w]]
    requires WorkerInRange(s0.workers[w], |s.events.contexts|) && !s0.workers[w].pc.Exited?
    ensures Lively(WithEvents(s0, r))
  {
    StaysLively(s, WithEvents(s0, r), w);
  }

  lemma ReportedInRange(s: State, reports: seq<Ev.Report>)
    requires Ev.Agree(s.events) && Ev.Reportable(s.events.interest, reports)
    ensures InRange(reports, |s.events.contexts|)
  {
  }

  lemma IdleMoveStaysLively(s: State, w: nat, op: WorkerOp)
    requires Ev.Agree(s.events) && Lively(s) && w < |s.workers| && IdleMove(s, s.workers[w], op).Some?
    ensures var m := IdleMove(s, s.workers[w], op).value;
            Lively(s.(workers := s.workers[w := m.worker], timers := m.timers))
  {
    var m := IdleMove(s, s.workers[w], op).value;
    if op.Poll? {
      ReportedInRange(s, op.reports);
    }
    assert WorkerInRange(m.worker, |s.events.contexts|) && !m.worker.pc.Exited?;
    hide IdleMove;
    StaysLively(s, s.(workers := s.workers[w := m.worker], timers := m.timers), w);
  }

  lemma DispatchStaysLively(s: State, w: nat, reports: seq<Ev.Report>, refused: bool)
    requires Lively(s) && w < |s.workers| && s.workers[w].pc == Carrying([], reports)
    requires reports != [] && reports[0].fd < |s.events.contexts|
    ensures Lively(DispatchNext(s, w, reports, refused))
  {
    assert WorkerInRange(s.workers[w], |s.events.contexts|);
    Ev.DispatchNotSmaller(s.events, reports[0], refused);
    hide Lively, Ev.Dispatch;
    EventsStayLively(s, Goto(s, w, Carrying([], reports[1..])), Ev.Dispatch(s.events, reports[0], refused), w);
  }

  lemma LoopStaysLively(s: State, w: nat, op: WorkerOp)
    requires Lively(s) && w < |s.workers| && StepNext(s, w, op).Some? && (op.Take? || op.Retire? || op.LeaveIdle?)
    ensures Lively(StepNext(s, w, op).value)
  {
    var s' := StepNext(s, w, op).value;
    hide Lively;
    assert s'.events == s.events && s'.workers == s.workers[w := s'.workers[w]];
    StaysLively(s, s', w);
  }

  lemma ResumeStaysLively(s: State, w: nat)
    requires Lively(s) && w < |s.workers| && StepNext(s, w, Resume).Some?
    ensures Lively(StepNext(s, w, Resume).value)
  {
    hide Ev.AddEvent, Ev.DelEvent, Ev.CancelEvent, Ev.CancelAll, Ev.Dispatch;
    var s' := StepNext(s, w, Resume).value;
    hide Lively;
    assert s'.events == s.events && s'.workers == s.workers[w := s'.workers[w]];
    StaysLively(s, s', w);
  }

  lemma VectorStaysLively(s: State, w: nat, op: WorkerOp)
    requires Lively(s) && w < |s.workers| && StepNext(s, w, op).Some? && (op.Expire? || op.Hand?)
    ensures Lively(StepNext(s, w, op).value)
  {
    var s' := StepNext(s, w, op).value;
    assert WorkerInRange(s.workers[w], |s.events.contexts|);
    hide Lively, Tm.Sweep, CallbacksOf, CallsOf;
    assert s'.events == s.events && s'.workers == s.workers[w := s'.workers[w]];
    StaysLively(s, s', w);
  }

  /** The registration operations of a fiber on worker w. */
  lemma BodyStaysLively(s: State, w: nat, f: nat, op: BodyOp)
    requires Lively(s) && w < |s.workers| && s.workers[w].pc.Run? && f < |s.fibers| && BodyNext(s, w, f, op).Some?
    ensures |s.events.contexts| <= |BodyNext(s, w, f, op).value.events.contexts|
  {
    hide Ev.AddEvent, Ev.DelEvent, Ev.CancelEvent, Ev.CancelAll;
    match op {
      case Watch(fd, e, id, refused) => Ev.AddEventNotSmaller(s.events, fd, e, Ev.CbWaiter(UserCb(id)), refused);
      case Unwatch(fd, e, refused) => Ev.OthersNotSmaller(s.events, fd, e, refused);
      case CancelIo(fd, e, refused) => Ev.OthersNotSmaller(s.events, fd, e, refused);
      case Close(fd, refused) => Ev.OthersNotSmaller(s.events, fd, Ev.Read, refused);
      case _ =>
    }
  }

  lemma CallSize(s: State, w: nat, f: nat, wait: Wait, phase: Phase, op: BodyOp)
    requires w < |s.workers| && f < |s.fibers| && CallNext(s, w, f, wait, phase, op).Some?
    ensures |s.events.contexts| <= |CallNext(s, w, f, wait, phase, op).value.events.contexts|
  {
    hide TryCode, CheckCode, Ev.AddEvent, Tm.Cancel, Tm.Add;
    if phase.Registering? {
      Ev.AddEventNotSmaller(s.events, wait.fd, wait.event, Ev.FiberWaiter(f), op.refused);
    }
  }

  lemma ExecSize(s: State, w: nat, op: BodyOp)
    requires Lively(s) && w < |s.workers| && ExecNext(s, w, op).Some?
    ensures |s.events.contexts| <= |ExecNext(s, w, op).value.events.contexts|
  {
    hide BodyNext, CallNext, Ev.CancelEvent;
    var f := s.workers[w].pc.fiber;
    var c := s.fibers[f].code;
    if c.Body? {
      BodyStaysLively(s, w, f, op);
    } else if c.InCall? {
      CallSize(s, w, f, c.wait, c.phase, op);
    } else if c.Cancelling? {
      Ev.OthersNotSmaller(s.events, c.fd, c.event, op.refused);
    }
  }

  lemma ExecStaysLively(s: State, w: nat, op: BodyOp)
    requires Lively(s) && w < |s.workers| && ExecNext(s, w, op).Some?
    ensures Lively(ExecNext(s, w, op).value)
  {
    ExecSize(s, w, op);
    ExecStillHolds(s, w, op);
    hide ExecNext, Lively;
    StaysLively(s, ExecNext(s, w, op).value, w);
  }

  lemma StepStaysLively(s: State, w: nat, op: WorkerOp)
    requires Ev.Agree(s.events) && Lively(s) && w < |s.workers| && StepNext(s, w, op).Some?
    ensures Lively(StepNext(s, w, op).value)
  {
    hide Lively, Ev.Agree, IdleMove, TakeNext, ResumeFiber, ResumeCallback, ExpireNext, HandNext, DispatchNext;
    match op {
      case Dispatch(refused) => DispatchStaysLively(s, w, s.workers[w].pc.reports, refused);
      case Resume => ResumeStaysLively(s, w);
      case Take => LoopStaysLively(s, w, op);
      case Retire => LoopStaysLively(s, w, op);
      case LeaveIdle => LoopStaysLively(s, w, op);
      case Expire => VectorStaysLively(s, w, op);
      case Hand => VectorStaysLively(s, w, op);
      case _ => IdleMoveStaysLively(s, w, op);
    }
  }

  lemma NextStaysLively(s: State, a: Action)
    requires Inv(s) && Lively(s) && Next(s, a).Some?
    ensures Lively(Next(s, a).value)
  {
    hide Ev.AddEvent, Ev.DelEvent, Ev.CancelEvent, Ev.CancelAll, Ev.Dispatch, Ev.Weight, SlotsOk, Tm.Add, Tm.Cancel;
    hide Tm.Refresh, Tm.Reset, Tm.Sweep, Tm.GetNext, Tm.FrontInv, Tm.Valid, TokensOk, References, Owed, TimersOk;
    hide OwnedTimers, HandlesOk, FiredOk, InFlightFired;
    assert Ev.Agree(s.events);
    match a {
      case Step(w, op) =>
        hide Inv, Lively, Ev.Agree;
        StepStaysLively(s, w, op);
      case Exec(w, op) =>
        hide Inv, Lively, ExecNext;
        ExecStaysLively(s, w, op);
      case _ =>
    }
  }

  lemma {:induction false} RunStaysLively(s: State, actions: seq<Action>)
    requires Inv(s) && Lively(s) && Runs(s, actions)
    ensures Inv(Final(s, actions)) && Lively(Final(s, actions))
    decreases |actions|
  {
    hide Inv, Lively, Next, Admissible;
    if actions != [] {
      NextKeepsInv(s, actions[0]);
      NextStaysLively(s, actions[0]);
      RunStaysLively(Next(s, actions[0]).value, actions[1..]);
    }
  }

  lemma InitialIsLively(n: nat, now: int, splitStop: bool)
    ensures Lively(Initial(n, now, splitStop))
  {
  }

  // ---------- what it means ----------

  /** In every reachable state a worker that has not left run() can take its next step, or it is about to resume a
      fiber that another worker is inside, and that one can take its next step. */
  lemma NobodyIsStuck(n: nat, now: int, splitStop: bool, actions: seq<Action>, s: State, w: nat)
    requires ReachedBy(n, now, splitStop, actions, s) && w < |s.workers| && !s.workers[w].pc.Exited?
    ensures Moves(s, w)
  {
    hide Inv, Lively, Initial, Moves;
    ReachedIsLively(n, now, splitStop, actions, s);
    EveryoneMoves(s, w);
  }

  lemma ReachedIsLively(n: nat, now: int, splitStop: bool, actions: seq<Action>, s: State)
    requires ReachedBy(n, now, splitStop, actions, s)
    ensures Inv(s) && Lively(s)
  {
    hide Inv, Lively, Initial, Runs, Final;
    InitialInv(n, now, splitStop);
    InitialIsLively(n, now, splitStop);
    RunStaysLively(Initial(n, now, splitStop), actions);
  }

  /** While work is left, some worker whose idle fiber is alive has not left run(), and it moves. */
  lemma WorkLeftMoves(n: nat, now: int, actions: seq<Action>, s: State)
    requires n > 0 && ReachedBy(n, now, false, actions, s) && !Quiescent(s)
    ensures exists w :: 0 <= w < |s.workers| && !s.workers[w].idleTerm && Moves(s, w)
  {
    WorkKeepsAWorker(n, now, actions);
    ReachedIsLively(n, now, false, actions, s);
    var w :| 0 <= w < |s.workers| && !s.workers[w].idleTerm;
    hide Moves, Inv;
    EveryoneMoves(s, w);
  }
}
