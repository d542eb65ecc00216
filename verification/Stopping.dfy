// IOManager::stopping answers yes when it should, and then everybody leaves run().

module Stopping {
  import opened Base
  import opened TaskQueue
  import opened Runtime
  import opened Invariants
  import opened Reachable
  import opened Guarantees
  import opened Progress
  import opened Witness
  import Ev = Events
  import Tm = Timers

  // ---------- what each read looks at ----------

  /** All that happens: worker w goes to this pc, and its idle fiber ends or not. */
  predicate OnlyGoes(s: State, s': State, w: nat, pc: Pc, idleTerm: bool)
    requires w < |s.workers|
  {
    s' == s.(workers := s.workers[w := Worker(pc, idleTerm)], timers := s'.timers)
  }

  /** A look at the timers: it takes their wake-up mark away and remembers the earliest deadline. */
  predicate Looked(t: TimerSet, t': TimerSet) {
    && t' == t.(tickled := t'.tickled, seen := t'.seen) && !t'.tickled
    && t'.seen == if t.order == [] then None else Some(t.order[0].next)
  }

  /** stopping() in one step: the idle fiber ends iff no timer is in the set, no event is registered, stop() was called,
      no task is queued and no worker is active; otherwise the worker goes on to wait. */
  lemma CheckAllIff(s: State, w: nat)
    requires !s.fault && !s.splitStop && w < |s.workers| && s.workers[w] == Worker(IdleTop, false)
    ensures var s' := Next(s, Step(w, CheckAll));
            && s'.Some? && Looked(s.timers, s'.value.timers)
            && if s.timers.order == [] && s.events.pending == 0 && s.stopping && s.queue == [] && s.active == 0
               then OnlyGoes(s, s'.value, w, IdleOut, true)
               else OnlyGoes(s, s'.value, w, Blocking, false)
  {
  }

  /** The first read: the timers alone. */
  lemma CheckTimersIff(s: State, w: nat)
    requires !s.fault && s.splitStop && w < |s.workers| && s.workers[w] == Worker(IdleTop, false)
    ensures var s' := Next(s, Step(w, CheckTimers));
            && s'.Some? && Looked(s.timers, s'.value.timers)
            && OnlyGoes(s, s'.value, w, if s.timers.order == [] then SawNoTimer else Blocking, false)
  {
  }

  /** The second read: the pending events alone. */
  lemma CheckPendingIff(s: State, w: nat)
    requires !s.fault && w < |s.workers| && s.workers[w] == Worker(SawNoTimer, false)
    ensures var s' := Next(s, Step(w, CheckPending));
            && s'.Some? && s'.value.timers == s.timers
            && OnlyGoes(s, s'.value, w, if s.events.pending == 0 then SawNoEvent else Blocking, false)
  {
  }

  /** The third read, under the queue lock: stop() was called, no task is queued and no worker is active. */
  lemma CheckQueueIff(s: State, w: nat)
    requires !s.fault && w < |s.workers| && s.workers[w] == Worker(SawNoEvent, false)
    ensures var s' := Next(s, Step(w, CheckQueue));
            && s'.Some? && s'.value.timers == s.timers
            && if s.stopping && s.queue == [] && s.active == 0
               then OnlyGoes(s, s'.value, w, IdleOut, true)
               else OnlyGoes(s, s'.value, w, Blocking, false)
  {
  }

  /** Before it waits, a worker looks at the timers once more, and every time it starts to wait anew; it takes from the
      wait what the kernel reports. */
  lemma WaitLooksFirst(s: State, w: nat, reports: seq<Ev.Report>)
    requires !s.fault && w < |s.workers| && !s.workers[w].idleTerm
    ensures s.workers[w].pc.Blocking? ==>
              var s' := Next(s, Step(w, Block));
              s'.Some? && Looked(s.timers, s'.value.timers) && OnlyGoes(s, s'.value, w, Polling, false)
    ensures s.workers[w].pc.Polling? ==> Next(s, Step(w, Interrupt)) == Some(Goto(s, w, Blocking))
    ensures s.workers[w].pc.Polling? && Ev.Reportable(s.events.interest, reports) ==>
              Next(s, Step(w, Poll(reports))) == Some(Goto(s, w, Expiring(reports)))
  {
  }

  /** stop() looks at the timers as a worker does, and then only leaves its mark. */
  lemma StopLooksThenMarks(s: State)
    requires !s.fault
    ensures var s' := Next(s, StopLook);
            && s'.Some? && Looked(s.timers, s'.value.timers) && s'.value == s.(timers := s'.value.timers)
            && Next(s'.value, Stop) == Some(s'.value.(stopping := true))
  {
  }

  // ---------- the way out ----------

  /** stop() was called and nothing is left to do: no task, timer or registered event, and no expired callback in a
      worker's hands. Workers may be anywhere else in run() and idle(), with outdated reports even. */
  ghost predicate NothingToDo(s: State) {
    && s.stopping && s.queue == [] && s.timers.order == [] && s.events.pending == 0 && s.active == 0
    && (forall w :: 0 <= w < |s.workers| && s.workers[w].pc.Carrying? ==> s.workers[w].pc.cbs == [])
  }

  /** How many steps a worker is away from leaving run(). */
  function Distance(x: Worker): nat {
    match x.pc
    case Exited => 0
    case Scan => if x.idleTerm then 1 else 6
    case IdleOut => if x.idleTerm then 2 else 7
    case SawNoEvent => 3
    case SawNoTimer => 4
    case IdleTop => 5
    case Carrying(_, reports) => 8 + |reports|
    case Expiring(reports) => 9 + |reports|
    case Polling => 10
    case Blocking => 11
    case _ => 12
  }

  function Distances(): Worker -> nat {
    (x: Worker) => Distance(x)
  }

  /** The step that leads there. */
  function WayOut(s: State, x: Worker): WorkerOp {
    match x.pc
    case IdleOut => LeaveIdle
    case SawNoEvent => CheckQueue
    case SawNoTimer => CheckPending
    case IdleTop => if s.splitStop then CheckTimers else CheckAll
    case Carrying(_, reports) => if reports == [] then YieldIdle else Dispatch(false)
    case Expiring(_) => Expire
    case Polling => Poll([])
    case Blocking => Block
    case _ => Take
  }

  ghost predicate Settled(s: State) {
    Inv(s) && Lively(s) && NothingToDo(s)
  }

  /** Nobody holds a task. */
  lemma NobodyIsActive(s: State, w: nat)
    requires Inv(s) && s.active == 0 && w < |s.workers|
    ensures !HoldsTask(s.workers[w].pc)
  {
    SumMember(s.workers, w, TaskCount());
  }

  lemma NothingIsFresh(s: State, w: nat)
    requires Ev.Agree(s.events) && s.events.pending == 0 && w < |s.workers| && s.workers[w].pc.Carrying?
    ensures FreshReports(s, Step(w, Dispatch(false)))
  {
    var reports := s.workers[w].pc.reports;
    if reports != [] && reports[0].fd < |s.events.contexts| {
      SumMember(s.events.contexts, reports[0].fd, Ev.BitCount<nat, Callback>());
    }
  }

  /** Worker w alone moves, and closer to its exit. */
  predicate Nearer(s: State, s': State, w: nat)
    requires w < |s.workers|
  {
    && |s'.workers| == |s.workers| && s'.workers == s.workers[w := s'.workers[w]]
    && Distance(s'.workers[w]) < Distance(s.workers[w])
  }

  /** The step is possible, and leaves nothing to do. */
  ghost predicate LeadsOut(s: State, w: nat)
    requires w < |s.workers|
  {
    var a := Step(w, WayOut(s, s.workers[w]));
    Next(s, a).Some? && Admissible(s, a) && NothingToDo(Next(s, a).value) && Nearer(s, Next(s, a).value, w)
  }

  lemma CarrierOut(s: State, w: nat)
    requires !s.fault && Ev.Agree(s.events) && NothingToDo(s) && w < |s.workers| && s.workers[w].pc.Carrying?
    requires WorkerInRange(s.workers[w], |s.events.contexts|)
    ensures LeadsOut(s, w)
  {
    hide Ev.Agree, Tm.GetNext, Tm.Sweep, DispatchNext, IdleMove, Ev.Reportable;
    NothingIsFresh(s, w);
    if s.workers[w].pc.reports == [] {
      EmptyHanded(s, w);
    } else {
      Undispatched(s, w);
    }
  }

  lemma EmptyHanded(s: State, w: nat)
    requires w < |s.workers| && s.workers[w].pc == Carrying([], [])
    ensures IdleMove(s, s.workers[w], YieldIdle) == Some(Move(s.workers[w].(pc := IdleOut), s.timers))
  {
  }

  lemma Undispatched(s: State, w: nat)
    requires Ev.Agree(s.events) && s.events.pending == 0 && w < |s.workers| && s.workers[w].pc.Carrying?
    requires s.workers[w].pc.reports != [] && s.workers[w].pc.reports[0].fd < |s.events.contexts|
    ensures var reports := s.workers[w].pc.reports;
            DispatchNext(s, w, reports, false) == Goto(s, w, Carrying([], reports[1..]))
  {
    hide Ev.Agree, Ev.Dispatch;
    NothingDispatched(s.events, s.workers[w].pc.reports[0]);
    assert s.queue + Queued([]) == s.queue;
  }

  lemma NothingDispatched(t: EventTable, r: Ev.Report)
    requires Ev.Agree(t) && t.pending == 0 && r.fd < |t.contexts|
    ensures Ev.Dispatch(t, r, false) == Ev.Done(t, [], true)
  {
    SumMember(t.contexts, r.fd, Ev.BitCount<nat, Callback>());
  }

  lemma ExpirerOut(s: State, w: nat)
    requires !s.fault && NothingToDo(s) && w < |s.workers| && s.workers[w].pc.Expiring?
    ensures LeadsOut(s, w)
  {
    hide Tm.Sweep, Tm.SweepEnds, Tm.SweepsApart, CallbacksOf, CallsOf, ExpireNext;
    SweepNone(s.timers, s.now);
    ExpireNone(s, w, s.workers[w].pc.reports);
  }

  /** At the top of run() and behind idle(). */
  lemma LoopOut(s: State, w: nat)
    requires !s.fault && NothingToDo(s) && w < |s.workers| && (s.workers[w].pc.Scan? || s.workers[w].pc.IdleOut?)
    ensures LeadsOut(s, w)
  {
    hide Tm.Sweep, Tm.GetNext, IdleMove;
    assert FirstEligible(s.queue, w).None?;
  }

  /** Inside stopping() and around the wait. */
  lemma IdleOutwards(s: State, w: nat)
    requires !s.fault && TermOk(s.workers) && NothingToDo(s) && w < |s.workers|
    requires s.workers[w].pc in {IdleTop, SawNoTimer, SawNoEvent, Blocking, Polling}
    ensures LeadsOut(s, w)
  {
    hide Tm.Sweep, TakeNext, ResumeFiber, ResumeCallback, ExpireNext, HandNext, DispatchNext;
  }

  /** Worker w takes one step towards its exit, and everything else stays settled. */
  lemma OneStepOut(s: State, w: nat)
    requires Settled(s) && w < |s.workers| && !s.workers[w].pc.Exited?
    ensures LeadsOut(s, w)
  {
    hide LeadsOut, Inv, Ev.Agree, TermOk, NothingToDo;
    InRangeAt(s, w);
    PartsOf(s);
    NothingActive(s);
    NobodyIsActive(s, w);
    match s.workers[w].pc {
      case Carrying(cbs, reports) => CarrierOut(s, w);
      case Expiring(reports) => ExpirerOut(s, w);
      case Scan => LoopOut(s, w);
      case IdleOut => LoopOut(s, w);
      case _ => IdleOutwards(s, w);
    }
  }

  lemma InRangeAt(s: State, w: nat)
    requires Lively(s) && w < |s.workers|
    ensures WorkerInRange(s.workers[w], |s.events.contexts|)
  {
  }

  lemma NothingActive(s: State)
    requires NothingToDo(s)
    ensures s.active == 0
  {
  }

  /** From every settled state a run leads to one in which all workers have left run(). */
  lemma {:induction false} SettledFinishes(s: State) returns (more: seq<Action>)
    requires Settled(s)
    ensures Runs(s, more) && |Final(s, more).workers| == |s.workers|
    ensures forall w :: 0 <= w < |s.workers| ==> Final(s, more).workers[w].pc.Exited?
    decreases Sum(s.workers, Distances())
  {
    hide Inv, Lively, NothingToDo, Next, Admissible;
    if w :| 0 <= w < |s.workers| && !s.workers[w].pc.Exited? {
      OneStepOut(s, w);
      var a := Step(w, WayOut(s, s.workers[w]));
      var s' := Next(s, a).value;
      NextKeepsInv(s, a);
      NextStaysLively(s, a);
      SumUpdate(s.workers, w, s'.workers[w], Distances());
      var rest := SettledFinishes(s');
      more := [a] + rest;
      assert more[1..] == rest;
    } else {
      more := [];
    }
  }

  /** In every reachable state with nothing left to do after stop(), whatever stage of run() and idle() each worker is
      at, a run leads to the end of run() on every worker, so stop() gets to join them. */
  lemma ShutdownFinishes(n: nat, start: int, splitStop: bool, actions: seq<Action>, s: State)
    returns (more: seq<Action>)
    requires ReachedBy(n, start, splitStop, actions, s) && NothingToDo(s)
    ensures Runs(s, more) && |Final(s, more).workers| == |s.workers|
    ensures forall w :: 0 <= w < |s.workers| ==> Final(s, more).workers[w].pc.Exited?
  {
    hide Inv, Lively, Initial, Runs, Final, NothingToDo;
    ReachedIsLively(n, start, splitStop, actions, s);
    more := SettledFinishes(s);
  }

  /** For every number of workers and both readings of stopping(): from the start, stop() and nothing else leads to the
      end of run() on every worker. */
  lemma StopAloneFinishes(n: nat, start: int, splitStop: bool) returns (actions: seq<Action>)
    ensures actions != [] && actions[0] == Stop && Runs(Initial(n, start, splitStop), actions)
    ensures var s := Final(Initial(n, start, splitStop), actions);
            |s.workers| == n && forall w :: 0 <= w < n ==> s.workers[w].pc.Exited?
  {
    hide Inv, Lively, Initial, NothingToDo, Next, Admissible;
    var s0 := Initial(n, start, splitStop);
    StopFirst(n, start, splitStop);
    InitialInv(n, start, splitStop);
    InitialIsLively(n, start, splitStop);
    NextKeepsInv(s0, Stop);
    NextStaysLively(s0, Stop);
    var more := SettledFinishes(Next(s0, Stop).value);
    actions := [Stop] + more;
    assert actions[1..] == more;
  }

  lemma StopFirst(n: nat, start: int, splitStop: bool)
    ensures var s := Initial(n, start, splitStop);
            && Next(s, Stop).Some? && Admissible(s, Stop)
            && NothingToDo(Next(s, Stop).value) && |Next(s, Stop).value.workers| == n
  {
  }
}
