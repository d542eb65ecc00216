// One worker: the assumptions about stale reports and late tasks hold by themselves, so shutdown is quiescent
// with stopping() exactly as written. And what a split stopping() can leave behind in general.

module SingleWorker {
  import opened Base
  import opened TaskQueue
  import opened Runtime
  import opened Invariants
  import opened WorkerSteps
  import opened Reachable
  import opened Shutdown
  import opened Guarantees
  import Ev = Events
  import Tm = Timers

  /** The reports in the hands of the only worker are what the kernel still watches. */
  ghost predicate CarriesFresh(s: State) {
    && |s.workers| == 1
    && (s.workers[0].pc.Expiring? ==> Ev.Reportable(s.events.interest, s.workers[0].pc.reports))
    && (s.workers[0].pc.Carrying? ==> Ev.Reportable(s.events.interest, s.workers[0].pc.reports))
  }

  lemma DispatchKeepsFresh(s: State, refused: bool)
    requires Ev.Agree(s.events) && CarriesFresh(s) && s.workers[0].pc.Carrying? && s.workers[0].pc.cbs == []
             && s.workers[0].pc.reports != []
    ensures var r := s.workers[0].pc.reports[0]; r.fd < |s.events.contexts| && Ev.Fresh(s.events, r)
    ensures CarriesFresh(DispatchNext(s, 0, s.workers[0].pc.reports, refused))
  {
    hide Ev.AddEvent, Ev.DelEvent, Ev.CancelEvent, Ev.CancelAll, Ev.Dispatch, Sum;
    var reports := s.workers[0].pc.reports;
    assert reports[0].fd in s.events.interest;
    Ev.DispatchKeeps(s.events, reports[0], refused, InSlot(Waking(0)));
    var interest := Ev.Dispatch(s.events, reports[0], refused).table.interest;
    forall i | 0 <= i < |reports[1..]|
      ensures
        var r := reports[1..][i];
        r.fd in interest && (r.input ==> interest[r.fd].read) && (r.output ==> interest[r.fd].write)
    {
      assert reports[1..][i] == reports[i + 1] && reports[i + 1].fd != reports[0].fd;
      Ev.DispatchIsLocal(s.events, reports[0], refused, reports[i + 1].fd);
    }
    assert Ev.Reportable(interest, reports[1..]);
  }

  /** Worker 0 is outside the part of idle() that holds reports. */
  lemma NoReportsInHand(s': State)
    requires |s'.workers| == 1 && !s'.workers[0].pc.Expiring? && !s'.workers[0].pc.Carrying?
    ensures CarriesFresh(s')
  {
  }

  lemma IdleMoveKeepsFresh(s: State, op: WorkerOp)
    requires TermOk(s.workers) && CarriesFresh(s) && IdleMove(s, s.workers[0], op).Some?
    ensures var m := IdleMove(s, s.workers[0], op).value;
            CarriesFresh(s.(workers := s.workers[0 := m.worker], timers := m.timers))
  {
    IdleMoveStaysIdle(s, s.workers[0], op);
  }

  lemma ExpireKeepsFresh(s: State)
    requires CarriesFresh(s) && s.workers[0].pc.Expiring? && Tm.SweepEnds(s.timers, s.now)
    ensures CarriesFresh(ExpireNext(s, 0, s.workers[0].pc.reports))
  {
    hide Tm.Sweep;
  }

  lemma HandKeepsFresh(s: State)
    requires CarriesFresh(s) && s.workers[0].pc.Carrying? && s.workers[0].pc.cbs != []
    ensures CarriesFresh(HandNext(s, 0, s.workers[0].pc.cbs, s.workers[0].pc.reports))
  {
  }

  lemma StepKeepsFresh(s: State, w: nat, op: WorkerOp)
    requires TermOk(s.workers) && Ev.Agree(s.events) && CarriesFresh(s) && w < |s.workers| && StepNext(s, w, op).Some?
    ensures FreshReports(s, Step(w, op)) && CarriesFresh(StepNext(s, w, op).value)
  {
    hide TermOk, Ev.Agree, IdleMove, DispatchNext, ExpireNext, HandNext;
    match op {
      case Dispatch(refused) => DispatchKeepsFresh(s, refused);
      case Take => NoReportsInHand(StepNext(s, w, op).value);
      case Resume => NoReportsInHand(StepNext(s, w, op).value);
      case Retire => NoReportsInHand(StepNext(s, w, op).value);
      case LeaveIdle => NoReportsInHand(StepNext(s, w, op).value);
      case Expire => ExpireKeepsFresh(s);
      case Hand => HandKeepsFresh(s);
      case _ => IdleMoveKeepsFresh(s, op);
    }
  }

  lemma NextKeepsFresh(s: State, a: Action)
    requires Inv(s) && CarriesFresh(s) && Next(s, a).Some?
    ensures FreshReports(s, a) && CarriesFresh(Next(s, a).value)
  {
    hide Ev.AddEvent, Ev.DelEvent, Ev.CancelEvent, Ev.CancelAll, Ev.Dispatch, Ev.Agree, Ev.Weight, SlotsOk, Tm.Add;
    hide Tm.Cancel, Tm.Refresh, Tm.Reset, Tm.Sweep, Tm.GetNext;
    match a {
      case Step(w, op) => StepKeepsFresh(s, w, op);
      case Exec(w, op) => ExecStillHolds(s, w, op);
      case _ =>
    }
  }

  lemma NoLateTask(s: State, a: Action)
    requires StopInv(s) && |s.workers| == 1
    ensures NoLatePop(s, a)
  {
    if s.workers[0].idleTerm {
      assert AllTerminated(s.workers);
    }
  }

  /** A run under the assumptions on deadlines and delEvent only. */
  ghost predicate PlainRun(s: State, actions: seq<Action>)
    decreases |actions|
  {
    actions == [] || (Next(s, actions[0]).Some? && DistinctDeadlines(s, actions[0]) && KeepsWaiters(s, actions[0])
                      && PlainRun(Next(s, actions[0]).value, actions[1..]))
  }

  lemma {:induction false} PlainRunIsAdmissible(s: State, actions: seq<Action>)
    requires Inv(s) && StopInv(s) && CarriesFresh(s) && PlainRun(s, actions)
    ensures Runs(s, actions) && NoLatePops(s, actions)
    decreases |actions|
  {
    hide BodyNext, CallNext, ExecNext, StepNext, Next, IdleMove, TakeNext, ResumeFiber, ResumeCallback, ExpireNext;
    hide HandNext, DispatchNext, CallBackNext;
    if actions != [] {
      NextKeepsFresh(s, actions[0]);
      NoLateTask(s, actions[0]);
      NextKeepsInv(s, actions[0]);
      NextKeepsStop(s, actions[0]);
      PlainRunIsAdmissible(Next(s, actions[0]).value, actions[1..]);
    }
  }

  /** With one worker no dispatch meets a stale report: every run is admissible as far as reports go. */
  lemma OneWorkerReportsAreFresh(now: int, splitStop: bool, actions: seq<Action>)
    requires PlainRun(Initial(1, now, splitStop), actions)
    ensures Runs(Initial(1, now, splitStop), actions) && NoLatePops(Initial(1, now, splitStop), actions)
  {
    hide Inv, Ev.AddEvent, Ev.DelEvent, Ev.CancelEvent, Ev.CancelAll, Ev.Dispatch;
    InitialInv(1, now, splitStop);
    InitialStop(1, now, splitStop);
    PlainRunIsAdmissible(Initial(1, now, splitStop), actions);
  }

  /** Quiescent shutdown of one worker, with the three reads of stopping() as written. */
  lemma QuiescentShutdownOfOne(now: int, actions: seq<Action>)
    requires PlainRun(Initial(1, now, true), actions)
    requires AllTerminated(Final(Initial(1, now, true), actions).workers)
    ensures Quiescent(Final(Initial(1, now, true), actions))
  {
    OneWorkerReportsAreFresh(now, true, actions);
    QuiescentShutdownSplit(1, now, actions);
  }

  // ---------- any number of workers, reads as written, late tasks allowed ----------

  /** Once every idle fiber has terminated no task is queued or held. */
  ghost predicate NoTaskAtEnd(s: State) {
    && |s.workers| > 0
    && (forall w :: 0 <= w < |s.workers| && s.workers[w].idleTerm ==> s.stopping)
    && (AllTerminated(s.workers) ==> s.queue == [] && s.active == 0)
  }

  /** Worker w keeps a task in hand or has just given one back. */
  lemma HolderKeepsEnd(s: State, s': State, w: nat)
    requires Inv(s) && NoTaskAtEnd(s) && w < |s.workers| == |s'.workers| && s'.workers == s.workers[w := s'.workers[w]]
    requires HoldsTask(s.workers[w].pc) && s'.workers[w].idleTerm == s.workers[w].idleTerm && s'.stopping == s.stopping
    ensures NoTaskAtEnd(s')
  {
    SumMember(s.workers, w, TaskCount());
    assert !AllTerminated(s.workers);
    var v :| 0 <= v < |s.workers| && !s.workers[v].idleTerm;
    assert !s'.workers[v].idleTerm;
    assert forall u :: 0 <= u < |s.workers| ==> s'.workers[u].idleTerm == s.workers[u].idleTerm;
  }

  /** The step changes neither the queue, the counter nor which idle fibers have terminated. */
  lemma CalmKeepsEnd(s: State, s': State)
    requires NoTaskAtEnd(s) && |s'.workers| == |s.workers| && s'.stopping == s.stopping
    requires forall v :: 0 <= v < |s.workers| ==> s'.workers[v].idleTerm == s.workers[v].idleTerm
    requires (s'.queue == s.queue && s'.active == s.active)
             || (exists v :: 0 <= v < |s.workers| && !s.workers[v].idleTerm)
    ensures NoTaskAtEnd(s')
  {
    assert AllTerminated(s'.workers) <==> AllTerminated(s.workers);
  }

  lemma IdleKeepsEnd(s: State, w: nat, op: WorkerOp)
    requires Inv(s) && NoTaskAtEnd(s) && w < |s.workers| && IdleMove(s, s.workers[w], op).Some?
    ensures var m := IdleMove(s, s.workers[w], op).value;
            NoTaskAtEnd(s.(workers := s.workers[w := m.worker], timers := m.timers))
  {
    hide Ev.AddEvent, Ev.DelEvent, Ev.CancelEvent, Ev.CancelAll, Ev.Dispatch;
    var m := IdleMove(s, s.workers[w], op).value;
    var s' := s.(workers := s.workers[w := m.worker], timers := m.timers);
    IdleMoveStaysIdle(s, s.workers[w], op);
    assert forall v :: 0 <= v < |s.workers| && v != w ==> s'.workers[v] == s.workers[v];
    if m.worker.idleTerm {
      assert op.CheckAll? || op.CheckQueue?;
    } else {
      assert !s'.workers[w].idleTerm;
    }
  }

  lemma TakeKeepsEnd(s: State, w: nat)
    requires NoTaskAtEnd(s) && w < |s.workers| && s.workers[w].pc.Scan?
    ensures NoTaskAtEnd(TakeNext(s, w))
  {
    if FirstEligible(s.queue, w).Some? {
      assert !AllTerminated(s.workers);
    }
    CalmKeepsEnd(s, TakeNext(s, w));
  }

  lemma ResumeKeepsEnd(s: State, w: nat)
    requires Inv(s) && NoTaskAtEnd(s) && w < |s.workers| && StepNext(s, w, Resume).Some?
             && !StepNext(s, w, Resume).value.fault
    ensures NoTaskAtEnd(StepNext(s, w, Resume).value)
  {
    hide Inv;
    var task := s.workers[w].pc.task;
    if task.work.FiberWork? {
      HolderKeepsEnd(s, ResumeFiber(s, w, task.work.fiber).value, w);
    } else {
      HolderKeepsEnd(s, ResumeCallback(s, w, task.work.cb), w);
    }
  }

  lemma RetireKeepsEnd(s: State, w: nat)
    requires Inv(s) && NoTaskAtEnd(s) && w < |s.workers| && s.workers[w].pc.After?
    ensures NoTaskAtEnd(Goto(s, w, Scan).(active := s.active - 1))
  {
    HolderKeepsEnd(s, Goto(s, w, Scan).(active := s.active - 1), w);
  }

  /** Expire, Hand and Dispatch: the idle fiber of w has not terminated. */
  lemma CarryKeepsEnd(s: State, s': State, w: nat)
    requires NoTaskAtEnd(s) && TermOk(s.workers) && w < |s.workers| == |s'.workers|
             && s'.workers == s.workers[w := s'.workers[w]]
    requires s.workers[w].pc.Expiring? || s.workers[w].pc.Carrying?
    requires s'.workers[w].idleTerm == s.workers[w].idleTerm && s'.stopping == s.stopping
    ensures NoTaskAtEnd(s')
  {
    assert !s.workers[w].idleTerm;
    assert forall v :: 0 <= v < |s.workers| ==> s'.workers[v].idleTerm == s.workers[v].idleTerm;
    CalmKeepsEnd(s, s');
  }

  lemma CarryStepKeepsEnd(s: State, w: nat, op: WorkerOp)
    requires TermOk(s.workers) && NoTaskAtEnd(s) && w < |s.workers| && StepNext(s, w, op).Some?
    requires op.Expire? || op.Hand? || op.Dispatch?
    ensures NoTaskAtEnd(StepNext(s, w, op).value)
  {
    hide TermOk, NoTaskAtEnd, Tm.Sweep, Ev.AndDispatch;
    CarryKeepsEnd(s, StepNext(s, w, op).value, w);
  }

  lemma IdleStepKeepsEnd(s: State, w: nat, op: WorkerOp)
    requires Inv(s) && NoTaskAtEnd(s) && w < |s.workers| && StepNext(s, w, op).Some?
    requires !op.Take? && !op.Retire? && !op.LeaveIdle? && !op.Expire? && !op.Hand? && !op.Dispatch? && !op.Resume?
    ensures NoTaskAtEnd(StepNext(s, w, op).value)
  {
    hide Inv, NoTaskAtEnd, IdleMove;
    IdleKeepsEnd(s, w, op);
  }

  lemma LoopStepKeepsEnd(s: State, w: nat, op: WorkerOp)
    requires Inv(s) && NoTaskAtEnd(s) && w < |s.workers| && StepNext(s, w, op).Some?
    requires op.Take? || op.Retire? || op.LeaveIdle?
    ensures NoTaskAtEnd(StepNext(s, w, op).value)
  {
    hide Inv, NoTaskAtEnd, TakeNext;
    match op {
      case Take => TakeKeepsEnd(s, w);
      case Retire => RetireKeepsEnd(s, w);
      case LeaveIdle => CalmKeepsEnd(s, StepNext(s, w, op).value);
    }
  }

  lemma StepKeepsEnd(s: State, w: nat, op: WorkerOp)
    requires Inv(s) && NoTaskAtEnd(s) && w < |s.workers| && StepNext(s, w, op).Some? && !StepNext(s, w, op).value.fault
    ensures NoTaskAtEnd(StepNext(s, w, op).value)
  {
    hide StepNext, NoTaskAtEnd;
    if op.Resume? {
      ResumeKeepsEnd(s, w);
    } else if op.Take? || op.Retire? || op.LeaveIdle? {
      LoopStepKeepsEnd(s, w, op);
    } else if op.Expire? || op.Hand? || op.Dispatch? {
      CarryStepKeepsEnd(s, w, op);
    } else {
      IdleStepKeepsEnd(s, w, op);
    }
  }

  lemma NextKeepsEnd(s: State, a: Action)
    requires Inv(s) && NoTaskAtEnd(s) && Next(s, a).Some? && Admissible(s, a)
    ensures NoTaskAtEnd(Next(s, a).value)
  {
    hide Ev.AddEvent, Ev.DelEvent, Ev.CancelEvent, Ev.CancelAll, Ev.Dispatch, Tm.FrontInv, Tm.Valid, TimersOk;
    hide OwnedTimers, HandlesOk, FiredOk, InFlightFired, Runs, Final, Admissible, Initial, ReachedBy;
    NextKeepsInv(s, a);
    match a {
      case Step(w, op) => StepKeepsEnd(s, w, op);
      case Exec(w, op) =>
        ExecStillHolds(s, w, op);
        HolderKeepsEnd(s, ExecNext(s, w, op).value, w);
      case External(_, _, _) => assert s.workers[0].idleTerm ==> s.stopping;
      case _ =>
    }
  }

  lemma {:induction false} RunKeepsEnd(s: State, actions: seq<Action>)
    requires Inv(s) && NoTaskAtEnd(s) && Runs(s, actions)
    ensures Inv(Final(s, actions)) && NoTaskAtEnd(Final(s, actions))
    decreases |actions|
  {
    hide BodyNext, CallNext, ExecNext, StepNext, Next, IdleMove, TakeNext, ResumeFiber, ResumeCallback, ExpireNext;
    hide HandNext, DispatchNext, CallBackNext, Inv;
    if actions != [] {
      NextKeepsInv(s, actions[0]);
      NextKeepsEnd(s, actions[0]);
      RunKeepsEnd(Next(s, actions[0]).value, actions[1..]);
    }
  }

  /** With the reads of stopping() as written, whatever the workers do: once every idle fiber has terminated no task is
      queued or held, and shutdown is quiescent iff the first two reads of stopping() would still succeed. */
  lemma SplitStoppingStrandsOnlyWaiters(n: nat, now: int, splitStop: bool, actions: seq<Action>, s: State)
    requires n > 0 && ReachedBy(n, now, splitStop, actions, s) && AllTerminated(s.workers)
    ensures s.queue == [] && forall w :: 0 <= w < |s.workers| ==> s.workers[w].pc in {IdleOut, Scan, Exited}
    ensures Quiescent(s) <==> Tm.GetNext(s.timers, s.now).1.None? && s.events.pending == 0
  {
    InitialInv(n, now, splitStop);
    StartHasNoTaskAtEnd(n, now, splitStop);
    hide Initial, NoTaskAtEnd, Inv, Quiescent, Tm.GetNext;
    RunKeepsEnd(Initial(n, now, splitStop), actions);
    EndIsQuiescentIff(s);
  }

  lemma StartHasNoTaskAtEnd(n: nat, now: int, splitStop: bool)
    requires n > 0
    ensures NoTaskAtEnd(Initial(n, now, splitStop))
  {
    assert Initial(n, now, splitStop).workers[0] == Worker(Scan, false);
  }

  lemma EndIsQuiescentIff(s: State)
    requires Inv(s) && NoTaskAtEnd(s) && AllTerminated(s.workers)
    ensures s.queue == [] && forall w :: 0 <= w < |s.workers| ==> s.workers[w].pc in {IdleOut, Scan, Exited}
    ensures Quiescent(s) <==> Tm.GetNext(s.timers, s.now).1.None? && s.events.pending == 0
  {
    hide Inv;
    NoTaskInHand(s);
    if Tm.GetNext(s.timers, s.now).1.None? && s.events.pending == 0 {
      NothingLeftIsQuiescent(s);
    }
    if Quiescent(s) {
      QuiescentHasNoEvent(s);
    }
  }

  lemma NoTaskInHand(s: State)
    requires Inv(s) && s.active == 0 && AllTerminated(s.workers)
    ensures forall w :: 0 <= w < |s.workers| ==> s.workers[w].pc in {IdleOut, Scan, Exited}
  {
    forall w | 0 <= w < |s.workers| ensures s.workers[w].pc in {IdleOut, Scan, Exited} {
      SumMember(s.workers, w, TaskCount());
    }
  }

  lemma NothingLeftIsQuiescent(s: State)
    requires Inv(s) && s.queue == [] && s.timers.order == [] && s.events.pending == 0
    requires forall w :: 0 <= w < |s.workers| ==> s.workers[w].pc in {IdleOut, Scan, Exited}
    ensures Quiescent(s)
  {
    NothingPending(s);
    forall f | 0 <= f < |s.fibers| ensures s.fibers[f].state.Term? {
      NoTokenNoFiber(s, f);
    }
  }

  lemma QuiescentHasNoEvent(s: State)
    requires Inv(s) && Quiescent(s)
    ensures s.events.pending == 0
  {
    forall x | x in s.events.contexts ensures Ev.BitCount<nat, Callback>()(x) == 0 {
      var fd :| 0 <= fd < |s.events.contexts| && s.events.contexts[fd] == x;
    }
    SumZero(s.events.contexts, Ev.BitCount<nat, Callback>());
  }
}
