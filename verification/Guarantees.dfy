// What the runtime guarantees in every reachable state of every interleaving.

module Guarantees {
  import opened Base
  import opened Runtime
  import opened Invariants
  import opened BodyTokens
  import opened Reachable
  import Ev = Events
  import Tm = Timers

  /** s is reached by some admissible run of n workers. */
  ghost predicate ReachedBy(n: nat, start: int, splitStop: bool, actions: seq<Action>, s: State) {
    Runs(Initial(n, start, splitStop), actions) && Final(Initial(n, start, splitStop), actions) == s
  }

  lemma ReachedHasInv(n: nat, start: int, splitStop: bool, actions: seq<Action>, s: State)
    requires ReachedBy(n, start, splitStop, actions, s)
    ensures Inv(s)
  {
    InitialInv(n, start, splitStop);
    RunKeepsInv(Initial(n, start, splitStop), actions);
  }

  /** No assert fails: not the one of resume(), nor those of addEvent, triggerEvent and cancelAll. And a worker
      that holds a popped fiber whose mutex is free finds it READY. */
  lemma NoAssertFails(n: nat, start: int, splitStop: bool, actions: seq<Action>, s: State)
    requires ReachedBy(n, start, splitStop, actions, s)
    ensures !s.fault
    ensures forall w :: 0 <= w < |s.workers| && s.workers[w].pc.Popped? && s.workers[w].pc.task.work.FiberWork? ==>
              var f := s.workers[w].pc.task.work.fiber;
              f < |s.fibers| && (s.fibers[f].holder.None? <==> s.fibers[f].state.Ready?)
  {
    ReachedHasInv(n, start, splitStop, actions, s);
    hide ReachedBy;
    forall w | 0 <= w < |s.workers| && s.workers[w].pc.Popped? && s.workers[w].pc.task.work.FiberWork?
      ensures var f := s.workers[w].pc.task.work.fiber;
              f < |s.fibers| && (s.fibers[f].holder.None? <==> s.fibers[f].state.Ready?)
    {
      PoppedIsReady(s, w);
    }
  }

  lemma PoppedIsReady(s: State, w: nat)
    requires Inv(s) && w < |s.workers| && s.workers[w].pc.Popped? && s.workers[w].pc.task.work.FiberWork?
    ensures var f := s.workers[w].pc.task.work.fiber;
            f < |s.fibers| && (s.fibers[f].holder.None? <==> s.fibers[f].state.Ready?)
  {
    var f := s.workers[w].pc.task.work.fiber;
    SumMember(s.workers, w, AtWorker(Waking(f)));
    assert Tokens(s, f) == Owed(s.fibers, f);
    assert FiberOk(f, s.fibers[f]);
  }

  /** A fiber runs on at most one worker, and a RUNNING fiber does run on one. */
  lemma OneWorkerPerFiber(n: nat, start: int, splitStop: bool, actions: seq<Action>, s: State)
    requires ReachedBy(n, start, splitStop, actions, s)
    ensures forall v, w ::
              0 <= v < |s.workers| && 0 <= w < |s.workers| && s.workers[v].pc.Run? && s.workers[w].pc == s.workers[v].pc
              ==> v == w
    ensures forall f :: 0 <= f < |s.fibers| ==>
              (s.fibers[f].state.Running? <==> exists w :: 0 <= w < |s.workers| && s.workers[w].pc == Run(f))
  {
    hide BodyNext, CallNext, ExecNext, StepNext, Next, IdleMove, TakeNext, ResumeFiber, ResumeCallback, ExpireNext;
    hide HandNext, DispatchNext, CallBackNext, Ev.Agree, Ev.Weight, SlotsOk;
    ReachedHasInv(n, start, splitStop, actions, s);
    forall f | 0 <= f < |s.fibers|
      ensures s.fibers[f].state.Running? <==> exists w :: 0 <= w < |s.workers| && s.workers[w].pc == Run(f)
    {
      if s.fibers[f].state.Running? {
        assert s.workers[s.fibers[f].holder.value].pc == Run(f);
      }
    }
  }

  /** Wake-token conservation: a suspended fiber is referenced exactly once across fd contexts, queue entries,
      armed timers, vectors of expired callbacks, callbacks under way and workers about to resume it; a running
      fiber has no reference before it has armed its wait and one after; a finished one has none. */
  lemma OneTokenPerWait(n: nat, start: int, splitStop: bool, actions: seq<Action>, s: State, f: nat)
    requires ReachedBy(n, start, splitStop, actions, s)
    ensures f < |s.fibers| && s.fibers[f].state.Ready? ==> Tokens(s, f) == 1
    ensures f < |s.fibers| && s.fibers[f].state.Running? ==>
              var c := s.fibers[f].code;
              Tokens(s, f) == if c.Asleep? || (c.InCall? && c.phase.Registered?) then 1 else 0
    ensures f < |s.fibers| && s.fibers[f].state.Term? ==> Tokens(s, f) == 0
    ensures f >= |s.fibers| ==> Tokens(s, f) == 0
  {
    hide BodyNext, CallNext, ExecNext, StepNext, Next, IdleMove, TakeNext, ResumeFiber, ResumeCallback, ExpireNext;
    hide HandNext, DispatchNext, CallBackNext, Ev.Agree, Ev.Weight, SlotsOk, Tm.FrontInv, Tm.Valid;
    ReachedHasInv(n, start, splitStop, actions, s);
    assert Tokens(s, f) == Owed(s.fibers, f);
    assert f < |s.fibers| ==> FiberOk(f, s.fibers[f]);
  }

  /** The active counter is the number of workers between the pop and the decrement and the idle counter the number
      inside idle(): an empty queue with a zero active counter means that no worker holds a task. */
  lemma CountersAreExact(n: nat, start: int, splitStop: bool, actions: seq<Action>, s: State)
    requires ReachedBy(n, start, splitStop, actions, s)
    ensures s.active == |set w | 0 <= w < |s.workers| && HoldsTask(s.workers[w].pc)|
    ensures s.idle == |set w | 0 <= w < |s.workers| && InIdle(s.workers[w].pc)|
    ensures s.active == 0 ==> forall w :: 0 <= w < |s.workers| ==> !HoldsTask(s.workers[w].pc)
  {
    ReachedHasInv(n, start, splitStop, actions, s);
    CountsAreCardinalities(s.workers, s.active, s.idle);
  }

  lemma CountsAreCardinalities(workers: seq<Worker>, active: int, idle: int)
    requires Counts(workers, active, idle)
    ensures active == |set w | 0 <= w < |workers| && HoldsTask(workers[w].pc)|
    ensures idle == |set w | 0 <= w < |workers| && InIdle(workers[w].pc)|
    ensures active == 0 ==> forall w :: 0 <= w < |workers| ==> !HoldsTask(workers[w].pc)
  {
    SumIsCount(workers, |workers|, TaskCount());
    SumIsCount(workers, |workers|, IdleCount());
    assert workers[..|workers|] == workers;
    CountedSets(workers);
    forall w | 0 <= w < |workers| && active == 0 ensures !HoldsTask(workers[w].pc) {
      SumMember(workers, w, TaskCount());
    }
  }

  lemma CountedSets(workers: seq<Worker>)
    ensures (set w | 0 <= w < |workers| && TaskCount()(workers[w]) == 1)
            == set w | 0 <= w < |workers| && HoldsTask(workers[w].pc)
    ensures (set w | 0 <= w < |workers| && IdleCount()(workers[w]) == 1)
            == set w | 0 <= w < |workers| && InIdle(workers[w].pc)
  {
  }

  lemma {:induction false} SumIsCount(workers: seq<Worker>, k: nat, w: Worker -> nat)
    requires k <= |workers| && forall i :: 0 <= i < |workers| ==> w(workers[i]) <= 1
    ensures Sum(workers[..k], w) == |set i | 0 <= i < k && w(workers[i]) == 1|
  {
    if k > 0 {
      SumIsCount(workers, k - 1, w);
      assert workers[..k] == workers[..k - 1] + [workers[k - 1]];
      SumPush(workers[..k - 1], workers[k - 1], w);
      var before := set i | 0 <= i < k - 1 && w(workers[i]) == 1;
      assert (set i | 0 <= i < k && w(workers[i]) == 1) == before + if w(workers[k - 1]) == 1 then {k - 1} else {};
    }
  }

  /** Event bits, waiter slots, the epoll interest map and m_pendingEventCount agree. */
  lemma EventsAgree(n: nat, start: int, splitStop: bool, actions: seq<Action>, s: State)
    requires ReachedBy(n, start, splitStop, actions, s)
    ensures Ev.Agree(s.events)
  {
    ReachedHasInv(n, start, splitStop, actions, s);
  }

  /** do_io and connect_with_timeout leave nothing behind: when the call is about to return, on whichever path and
      after however many retries, no timer it armed is left and no fd context waits for its fiber. do_io hands on
      neither the EINTR nor the EAGAIN of a system call; EAGAIN can be what a failing addEvent leaves. */
  lemma CallLeavesNothing(n: nat, start: int, splitStop: bool, actions: seq<Action>, s: State, f: nat)
    requires ReachedBy(n, start, splitStop, actions, s)
    requires f < |s.fibers| && s.fibers[f].code.Exiting?
    ensures var wait := s.fibers[f].code.wait;
            && s.timers.limbo == map[]
            && (forall i :: 0 <= i < |s.timers.order| && s.timers.order[i].cb.TimeoutIo?
                 ==> s.timers.order[i].cb.call != wait.call)
            && (forall fd, e: Ev.Event :: 0 <= fd < |s.events.contexts|
                 ==> s.events.contexts[fd].Slot(e).fiber != Some(f))
            && OutcomeOk(wait, s.fibers[f].code.outcome)
            && (wait.kind == ReadWrite ==> ErrnoOf(s.fibers[f].code.outcome) != Some(EINTR))
  {
    hide Inv, ReachedBy;
    ReachedHasInv(n, start, splitStop, actions, s);
    ExitParts(s, f);
    forall i | 0 <= i < |s.timers.order| && s.timers.order[i].cb.TimeoutIo?
      ensures s.timers.order[i].cb.call != s.fibers[f].code.wait.call {
      assert OwnedTimer(s.timers.order[i], s.fibers);
    }
    forall fd, e: Ev.Event | 0 <= fd < |s.events.contexts| ensures s.events.contexts[fd].Slot(e).fiber != Some(f) {
      NoTokenNoSlot(s, f, fd, e);
    }
  }

  lemma ExitParts(s: State, f: nat)
    requires Inv(s) && f < |s.fibers|
    ensures FiberOk(f, s.fibers[f]) && s.timers.limbo == map[] && OwnedTimers(s.timers.order, s.fibers)
  {
  }

  lemma NoTokenNoSlot(s: State, f: nat, fd: nat, e: Ev.Event)
    requires Inv(s) && f < |s.fibers| && s.fibers[f].code.Exiting?
    requires fd < |s.events.contexts|
    ensures s.events.contexts[fd].Slot(e).fiber != Some(f)
  {
    hide Tm.FrontInv, Tm.Valid, Sum, TimersOk, OwnedTimers, HandlesOk, FiredOk, InFlightFired;
    assert Tokens(s, f) == Owed(s.fibers, f) && Ev.Agree(s.events);
    hide Inv;
    SumMember(s.events.contexts, fd, Ev.Weight(InSlot(Waking(f))));
    var ctx := s.events.contexts[fd];
    assert ctx.Consistent();
    var target := ctx.Slot(e).Target();
    assert Sum(target, InSlot(Waking(f))) == 0;
    if target != [] {
      SumMember(target, 0, InSlot(Waking(f)));
    }
  }

  /** A call takes its timeout exit only if a timer armed by this same call fired, at least the timeout after the
      call was entered. */
  lemma TimeoutIsEarned(n: nat, start: int, splitStop: bool, actions: seq<Action>, s: State, f: nat)
    requires ReachedBy(n, start, splitStop, actions, s)
    requires f < |s.fibers| && s.fibers[f].code.Exiting? && s.fibers[f].code.outcome.TimedOut?
    ensures var wait := s.fibers[f].code.wait;
            wait.timeout.Some? && wait.call in s.fired && s.now >= wait.entered + wait.timeout.value
  {
    hide BodyNext, CallNext, ExecNext, StepNext, Next, IdleMove, TakeNext, ResumeFiber, ResumeCallback, ExpireNext;
    hide HandNext, DispatchNext, CallBackNext;
    ReachedHasInv(n, start, splitStop, actions, s);
    assert FiberOk(f, s.fibers[f]);
    assert FiredInTime(s.fibers[f].code.wait.call, s.fibers, s.now);
  }

  /** Either a wake-up for a new earliest timer is pending or no deadline is earlier than the one the last
      getNextTimer saw; all deadlines are distinct and every armed timer is in the set. */
  lemma FrontIsCovered(n: nat, start: int, splitStop: bool, actions: seq<Action>, s: State)
    requires ReachedBy(n, start, splitStop, actions, s)
    ensures Tm.FrontCovered(s.timers) && Tm.Sorted(s.timers.order) && s.timers.limbo == map[]
  {
    ReachedHasInv(n, start, splitStop, actions, s);
  }

  // ---------- what the assumptions are for ----------

  /** sleep() arms the one token its fiber needs iff its deadline is not taken; on a tie the fiber is lost. */
  lemma SleepNeedsADistinctDeadline(s: State, f: nat, ms: nat)
    requires Inv(s) && f < |s.fibers| && s.fibers[f].code.Body?
    ensures var s' := SetCode(AddTimer(s, ms, false, WakeFiber(f)), f, Asleep);
            && Owed(s'.fibers, f) == 1
            && (Tokens(s', f) == 1 <==> !Tm.Tie(s.timers.order, s.now + ms))
            && (Tm.Tie(s.timers.order, s.now + ms) ==> Tokens(s', f) == 0)
  {
    hide Ev.Agree, Ev.Weight, SlotsOk;
    AddTimerTokens(s, ms, false, WakeFiber(f), Waking(f));
    SetCodeTokens(AddTimer(s, ms, false, WakeFiber(f)), f, Asleep, f);
    assert Tokens(s, f) == Owed(s.fibers, f);
  }

  /** What the slot of e refers to, for fiber f. */
  ghost function SlotTokens(s: State, fd: nat, e: Ev.Event, f: nat): nat
    requires fd < |s.events.contexts|
  {
    Sum(s.events.contexts[fd].Slot(e).Target(), InSlot(Waking(f)))
  }

  /** delEvent keeps the token of every fiber iff the kernel refuses or no fiber waits on the registration. */
  lemma DelEventNeedsNoWaiter(s: State, fd: nat, e: Ev.Event, refused: bool)
    requires Inv(s) && fd < |s.events.contexts| && s.events.contexts[fd].events.Has(e)
    ensures var r := Ev.DelEvent(s.events, fd, e, refused);
            r.Done? && ((forall f: nat :: Tokens(WithEvents(s, r), f) == Tokens(s, f))
                <==> refused || s.events.contexts[fd].Slot(e).fiber.None?)
  {
    hide References, Ev.DelEvent, Ev.Agree;
    var r := Ev.DelEvent(s.events, fd, e, refused);
    if refused {
      RefusedDelEvent(s, fd, e);
    } else {
      DelEventDrops(s, fd, e, 0);
      if s.events.contexts[fd].Slot(e).fiber.None? {
        forall f: nat ensures Tokens(WithEvents(s, r), f) == Tokens(s, f) {
          DelEventDrops(s, fd, e, f);
          UserSlotTokens(s, fd, e, f);
        }
      } else {
        var f := s.events.contexts[fd].Slot(e).fiber.value;
        DelEventDrops(s, fd, e, f);
        WaiterWeighs(s, fd, e);
        assert Tokens(WithEvents(s, r), f) < Tokens(s, f);
      }
    }
  }

  lemma RefusedDelEvent(s: State, fd: nat, e: Ev.Event)
    ensures var r := Ev.DelEvent(s.events, fd, e, true);
            r.Done? && forall f: nat :: Tokens(WithEvents(s, r), f) == Tokens(s, f)
  {
    assert s.queue + Queued([]) == s.queue;
  }

  lemma WaiterWeighs(s: State, fd: nat, e: Ev.Event)
    requires Ev.Agree(s.events) && fd < |s.events.contexts| && s.events.contexts[fd].Slot(e).fiber.Some?
    ensures SlotTokens(s, fd, e, s.events.contexts[fd].Slot(e).fiber.value) > 0
  {
    var target := s.events.contexts[fd].Slot(e).Target();
    assert s.events.contexts[fd].Consistent();
    SumMember(target, 0, InSlot(Waking(s.events.contexts[fd].Slot(e).fiber.value)));
  }

  lemma DelEventDrops(s: State, fd: nat, e: Ev.Event, f: nat)
    requires Ev.Agree(s.events) && fd < |s.events.contexts| && s.events.contexts[fd].events.Has(e)
    ensures var r := Ev.DelEvent(s.events, fd, e, false);
            r.Done? && Tokens(WithEvents(s, r), f) + SlotTokens(s, fd, e, f) == Tokens(s, f)
  {
    hide References, Ev.Agree;
    Ev.DelEventKeeps(s.events, fd, e, false, InSlot(Waking(f)));
    DroppedTokens(s, Ev.DelEvent(s.events, fd, e, false), SlotTokens(s, fd, e, f), f);
  }

  lemma DroppedTokens(s: State, r: Ev.Result<nat, Callback>, lost: nat, f: nat)
    requires r.Done? && r.woken == []
    requires var w := Ev.Weight(InSlot(Waking(f))); Sum(r.table.contexts, w) + lost == Sum(s.events.contexts, w)
    ensures Tokens(WithEvents(s, r), f) + lost == Tokens(s, f)
  {
    assert s.queue + [] == s.queue;
  }
}
