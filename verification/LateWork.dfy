// With the reads of stopping() as written: what decides whether shutdown leaves the runtime quiescent.

module LateWork {
  import opened Base
  import opened TaskQueue
  import opened Runtime
  import opened Invariants
  import opened WorkerSteps
  import opened Reachable
  import opened Shutdown
  import opened Guarantees
  import opened SingleWorker
  import Ev = Events
  import Tm = Timers

  /** The timers in the set, by their handles. */
  ghost function TimerKeys(t: TimerSet): set<nat> {
    set i | 0 <= i < |t.order| :: t.order[i].key
  }

  /** The registered events. */
  ghost function EventBits(t: EventTable): set<(nat, Ev.Event)> {
    set fd, e: Ev.Event | 0 <= fd < |t.contexts| && t.contexts[fd].events.Has(e) :: (fd, e)
  }

  /** What the action arms or registers after the first, or the first two, reads of every worker. */
  ghost function ArmedLate(s: State, a: Action): set<nat> {
    if Next(s, a).None? || !AllPastTimers(s.workers) then {}
    else TimerKeys(Next(s, a).value.timers) - TimerKeys(s.timers)
  }

  ghost function WatchedLate(s: State, a: Action): set<(nat, Ev.Event)> {
    if Next(s, a).None? || !AllPastEvents(s.workers) then {}
    else EventBits(Next(s, a).value.events) - EventBits(s.events)
  }

  ghost function LateTimers(s: State, actions: seq<Action>): set<nat>
    decreases |actions|
  {
    if actions == [] || Next(s, actions[0]).None? then {}
    else ArmedLate(s, actions[0]) + LateTimers(Next(s, actions[0]).value, actions[1..])
  }

  ghost function LateEvents(s: State, actions: seq<Action>): set<(nat, Ev.Event)>
    decreases |actions|
  {
    if actions == [] || Next(s, actions[0]).None? then {}
    else WatchedLate(s, actions[0]) + LateEvents(Next(s, actions[0]).value, actions[1..])
  }

  // ---------- who works late ----------

  /** A task runs on a worker whose own idle fiber has terminated: the worker popped it after that. */
  predicate RunsLateTask(s: State, a: Action) {
    a.Exec? && a.w < |s.workers| && s.workers[a.w].idleTerm && s.workers[a.w].pc.Run?
  }

  lemma LateIsByLateTask(s: State, a: Action)
    requires Inv(s) && Next(s, a).Some?
    ensures ArmedLate(s, a) != {} || WatchedLate(s, a) != {} ==> RunsLateTask(s, a)
  {
    hide Inv, StepNext, ExecNext, Tm.GetNext;
    match a {
      case Step(w, op) => StepIsNotLate(s, w, op);
      case Exec(w, op) => RunsOf(s, w, op);
      case StopLook => OutsideLook(s.timers, s.now);
      case _ =>
    }
  }

  lemma OutsideLook(t: TimerSet, now: int)
    ensures Tm.GetNext(t, now).0.order == t.order
  {
  }

  lemma RunsOf(s: State, w: nat, op: BodyOp)
    requires w < |s.workers| && ExecNext(s, w, op).Some?
    ensures s.workers[w].pc.Run?
  {
  }

  lemma StepIsNotLate(s: State, w: nat, op: WorkerOp)
    requires Inv(s) && w < |s.workers| && StepNext(s, w, op).Some?
    ensures ArmedLate(s, Step(w, op)) == {} && WatchedLate(s, Step(w, op)) == {}
  {
    hide Inv, StepNext, TermOk;
    PartsOf(s);
    if op.Expire? || op.Dispatch? {
      CarrierIsEarly(s, w, op);
    }
    if !op.Expire? {
      TimersStay(s, w, op);
    }
    if op.Resume? {
      ResumeKeepsEvents(s, w);
    } else if !op.Dispatch? {
      EventsStay(s, w, op);
    }
  }

  /** A worker that handles expired timers and reports is past no read. */
  lemma CarrierIsEarly(s: State, w: nat, op: WorkerOp)
    requires TermOk(s.workers) && w < |s.workers| && StepNext(s, w, op).Some? && (op.Expire? || op.Dispatch?)
    ensures !AllPastTimers(s.workers) && !AllPastEvents(s.workers)
  {
    hide ExpireNext, DispatchNext, Tm.SweepEnds;
    assert s.workers[w].pc.Expiring? || s.workers[w].pc.Carrying?;
    assert !PastTimers(s.workers[w]) && !PastEvents(s.workers[w]);
  }

  lemma ResumeKeepsEvents(s: State, w: nat)
    requires w < |s.workers| && StepNext(s, w, Resume).Some?
    ensures StepNext(s, w, Resume).value.events == s.events
  {
  }

  // ---------- what is there when every worker is past a read ----------

  /** When every worker is past its first read, all timers there are have been armed since then; when every worker is
      past its second, so have all registrations. */
  ghost predicate OnlyLate(s: State, armed: set<nat>, watched: set<(nat, Ev.Event)>) {
    && (AllPastTimers(s.workers) ==> TimerKeys(s.timers) <= armed)
    && (AllPastEvents(s.workers) ==> EventBits(s.events) <= watched)
  }

  /** The worker that is the last to pass a read finds nothing. */
  lemma LastReadFindsNothing(s: State, a: Action)
    requires Inv(s) && Next(s, a).Some?
    ensures var s' := Next(s, a).value;
            && (AllPastTimers(s'.workers) && !AllPastTimers(s.workers) ==> TimerKeys(s'.timers) == {})
            && (AllPastEvents(s'.workers) && !AllPastEvents(s.workers) ==> EventBits(s'.events) == {})
  {
    hide Inv, StepNext, ExecNext, TimerKeys, EventBits;
    match a {
      case Step(w, op) =>
        PartsOf(s);
        if IdleMove(s, s.workers[w], op).Some? {
          ReadFindsNothing(s, w, op);
        } else {
          StepPassesNothing(s, w, op);
        }
      case Exec(w, op) => ExecPassesNothing(s, w, op);
      case _ =>
    }
  }

  /** Only worker w changes; where it passes no read, the workers together pass none. */
  lemma OnePasses(workers: seq<Worker>, workers': seq<Worker>, w: nat)
    requires w < |workers| == |workers'| && workers' == workers[w := workers'[w]]
    ensures AllPastTimers(workers') && !AllPastTimers(workers)
            ==> PastTimers(workers'[w]) && !PastTimers(workers[w])
    ensures AllPastEvents(workers') && !AllPastEvents(workers)
            ==> PastEvents(workers'[w]) && !PastEvents(workers[w])
  {
    hide PastTimers, PastEvents;
    if AllPastTimers(workers') && (PastTimers(workers'[w]) ==> PastTimers(workers[w])) {
      forall v | 0 <= v < |workers| ensures PastTimers(workers[v]) {
        assert PastTimers(workers'[v]);
      }
    }
    if AllPastEvents(workers') && (PastEvents(workers'[w]) ==> PastEvents(workers[w])) {
      forall v | 0 <= v < |workers| ensures PastEvents(workers[v]) {
        assert PastEvents(workers'[v]);
      }
    }
  }

  lemma StepPassesNothing(s: State, w: nat, op: WorkerOp)
    requires w < |s.workers| && StepNext(s, w, op).Some? && IdleMove(s, s.workers[w], op).None?
    ensures var s' := StepNext(s, w, op).value;
            && (AllPastTimers(s'.workers) ==> AllPastTimers(s.workers))
            && (AllPastEvents(s'.workers) ==> AllPastEvents(s.workers))
  {
    hide AllPastTimers, AllPastEvents, Tm.SweepEnds, IdleMove, PastTimers, PastEvents, TakeNext, ResumeFiber;
    hide ResumeCallback, ExpireNext, HandNext, DispatchNext;
    var s' := StepNext(s, w, op).value;
    if op.Resume? || op.Take? {
      TakingPasses(s, w, op);
    } else {
      CarryingPasses(s, w, op);
    }
    OnePasses(s.workers, s'.workers, w);
  }

  /** Worker w alone moves, and not past a read. */
  predicate NotPast(s: State, s': State, w: nat)
    requires w < |s.workers|
  {
    && |s'.workers| == |s.workers| && s'.workers == s.workers[w := s'.workers[w]]
    && (PastTimers(s'.workers[w]) ==> PastTimers(s.workers[w]))
    && (PastEvents(s'.workers[w]) ==> PastEvents(s.workers[w]))
  }

  lemma TakingPasses(s: State, w: nat, op: WorkerOp)
    requires w < |s.workers| && StepNext(s, w, op).Some? && (op.Resume? || op.Take?)
    ensures NotPast(s, StepNext(s, w, op).value, w)
  {
    hide Without;
  }

  lemma CarryingPasses(s: State, w: nat, op: WorkerOp)
    requires w < |s.workers| && StepNext(s, w, op).Some? && IdleMove(s, s.workers[w], op).None?
    requires !op.Resume? && !op.Take?
    ensures NotPast(s, StepNext(s, w, op).value, w)
  {
    hide Tm.Sweep, Tm.SweepEnds, Ev.Dispatch, IdleMove, CallbacksOf, CallsOf, Queued;
  }

  lemma ExecPassesNothing(s: State, w: nat, op: BodyOp)
    requires w < |s.workers| && ExecNext(s, w, op).Some?
    ensures var s' := ExecNext(s, w, op).value;
            && (AllPastTimers(s'.workers) ==> AllPastTimers(s.workers))
            && (AllPastEvents(s'.workers) ==> AllPastEvents(s.workers))
  {
    hide AllPastTimers, AllPastEvents, ExecNext;
    ExecStillHolds(s, w, op);
    OnePasses(s.workers, ExecNext(s, w, op).value.workers, w);
  }

  lemma ReadFindsNothing(s: State, w: nat, op: WorkerOp)
    requires Ev.Agree(s.events) && w < |s.workers| && IdleMove(s, s.workers[w], op).Some?
    requires StepNext(s, w, op).Some?
    ensures var s' := StepNext(s, w, op).value;
            && (AllPastTimers(s'.workers) && !AllPastTimers(s.workers) ==> TimerKeys(s'.timers) == {})
            && (AllPastEvents(s'.workers) && !AllPastEvents(s.workers) ==> EventBits(s'.events) == {})
  {
    var m := IdleMove(s, s.workers[w], op).value;
    var s' := StepNext(s, w, op).value;
    assert s' == s.(workers := s.workers[w := m.worker], timers := m.timers) by { IdleStep(s, w, op); }
    hide StepNext, EventBits, Ev.Agree, AllPastTimers, AllPastEvents;
    OnePasses(s.workers, s'.workers, w);
    if s.events.pending == 0 {
      NothingRegistered(s.events);
    }
    ReadPassed(s, s.workers[w], op);
  }

  lemma IdleStep(s: State, w: nat, op: WorkerOp)
    requires w < |s.workers| && IdleMove(s, s.workers[w], op).Some?
    ensures var m := IdleMove(s, s.workers[w], op).value;
            StepNext(s, w, op) == Some(s.(workers := s.workers[w := m.worker], timers := m.timers))
  {
  }

  lemma ReadPassed(s: State, me: Worker, op: WorkerOp)
    requires IdleMove(s, me, op).Some?
    ensures var m := IdleMove(s, me, op).value;
            && (PastTimers(m.worker) && !PastTimers(me) ==> m.timers.order == [])
            && (PastEvents(m.worker) && !PastEvents(me) ==> s.events.pending == 0)
  {
  }

  lemma NothingRegistered(t: EventTable)
    requires Ev.Agree(t) && t.pending == 0
    ensures EventBits(t) == {}
  {
    forall fd | 0 <= fd < |t.contexts| ensures t.contexts[fd].events.Empty() {
      SumMember(t.contexts, fd, Ev.BitCount<nat, Callback>());
    }
  }

  lemma NextKeepsLate(s: State, a: Action, armed: set<nat>, watched: set<(nat, Ev.Event)>)
    requires Inv(s) && OnlyLate(s, armed, watched) && Next(s, a).Some?
    ensures OnlyLate(Next(s, a).value, armed + ArmedLate(s, a), watched + WatchedLate(s, a))
  {
    hide Inv, Next, TimerKeys, EventBits, AllPastTimers, AllPastEvents;
    LastReadFindsNothing(s, a);
  }

  lemma {:induction false} RunKeepsLate(s: State, actions: seq<Action>, armed: set<nat>,
      watched: set<(nat, Ev.Event)>)
    requires Inv(s) && OnlyLate(s, armed, watched) && Runs(s, actions)
    ensures OnlyLate(Final(s, actions), armed + LateTimers(s, actions), watched + LateEvents(s, actions))
    decreases |actions|
  {
    hide Inv, Next, Admissible, OnlyLate, ArmedLate, WatchedLate;
    if actions == [] {
      assert armed + LateTimers(s, actions) == armed && watched + LateEvents(s, actions) == watched;
    } else {
      var s1 := Next(s, actions[0]).value;
      var armed1, watched1 := armed + ArmedLate(s, actions[0]), watched + WatchedLate(s, actions[0]);
      NextKeepsInv(s, actions[0]);
      NextKeepsLate(s, actions[0], armed, watched);
      RunKeepsLate(s1, actions[1..], armed1, watched1);
      assert armed1 + LateTimers(s1, actions[1..]) == armed + LateTimers(s, actions);
      assert watched1 + LateEvents(s1, actions[1..]) == watched + LateEvents(s, actions);
    }
  }

  lemma InitialOnlyLate(n: nat, now: int, splitStop: bool)
    ensures OnlyLate(Initial(n, now, splitStop), {}, {})
  {
  }

  // ---------- what it means ----------

  /** For every run of any number of workers, reads as written, after which every idle fiber has terminated: what is
      left was armed or registered after the reads of all workers, and the runtime is quiescent iff nothing of that
      is left. By LateIsByLateTask it was armed or registered by tasks that were popped late. */
  lemma QuiescentIffLateWorkGone(n: nat, now: int, splitStop: bool, actions: seq<Action>, s: State)
    requires n > 0 && ReachedBy(n, now, splitStop, actions, s) && AllTerminated(s.workers)
    ensures var s0 := Initial(n, now, splitStop);
            && TimerKeys(s.timers) <= LateTimers(s0, actions) && EventBits(s.events) <= LateEvents(s0, actions)
            && (Quiescent(s) <==>
                  LateTimers(s0, actions) !! TimerKeys(s.timers) && LateEvents(s0, actions) !! EventBits(s.events))
  {
    var s0 := Initial(n, now, splitStop);
    InitialInv(n, now, splitStop);
    InitialOnlyLate(n, now, splitStop);
    hide Inv, Initial, Quiescent, OnlyLate, LateTimers, LateEvents, TimerKeys, EventBits, Tm.GetNext;
    RunKeepsLate(s0, actions, {}, {});
    assert {} + LateTimers(s0, actions) == LateTimers(s0, actions);
    assert {} + LateEvents(s0, actions) == LateEvents(s0, actions);
    AtTheEnd(s, LateTimers(s0, actions), LateEvents(s0, actions));
    ReachedHasInv(n, now, splitStop, actions, s);
    SplitStoppingStrandsOnlyWaiters(n, now, splitStop, actions, s);
    NothingMeansEmpty(s);
  }

  lemma AtTheEnd(s: State, armed: set<nat>, watched: set<(nat, Ev.Event)>)
    requires OnlyLate(s, armed, watched) && AllTerminated(s.workers)
    ensures TimerKeys(s.timers) <= armed && EventBits(s.events) <= watched
  {
    hide TimerKeys, EventBits;
  }

  lemma NothingMeansEmpty(s: State)
    requires Inv(s)
    ensures TimerKeys(s.timers) == {} <==> Tm.GetNext(s.timers, s.now).1.None?
    ensures EventBits(s.events) == {} <==> s.events.pending == 0
  {
    if s.timers.order != [] {
      assert s.timers.order[0].key in TimerKeys(s.timers);
    }
    PartsOf(s);
    if s.events.pending == 0 {
      NothingRegistered(s.events);
    } else if EventBits(s.events) == {} {
      NothingCounted(s.events);
    }
  }

  lemma NothingCounted(t: EventTable)
    requires Ev.Agree(t) && EventBits(t) == {}
    ensures t.pending == 0
  {
    forall x | x in t.contexts ensures Ev.BitCount<nat, Callback>()(x) == 0 {
      var fd :| 0 <= fd < |t.contexts| && t.contexts[fd] == x;
      assert (fd, Ev.Read) !in EventBits(t) && (fd, Ev.Write) !in EventBits(t);
      assert !x.events.Has(Ev.Read) && !x.events.Has(Ev.Write);
    }
    SumZero(t.contexts, Ev.BitCount<nat, Callback>());
  }
}
