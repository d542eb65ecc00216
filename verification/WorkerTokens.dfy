// The steps of a worker move wake-up tokens; they neither lose nor copy one.

module WorkerTokens {
  import opened Base
  import opened TaskQueue
  import opened Runtime
  import opened Invariants
  import opened WorkerSteps
  import Ev = Events
  import Tm = Timers

  /** A worker changes hands: its own tokens change from those of x to those of y. */
  lemma WorkerTokensUpdate(s: State, w: nat, y: Worker, v: Work -> nat)
    requires w < |s.workers|
    ensures Sum(s.workers[w := y], AtWorker(v)) + AtWorker(v)(s.workers[w])
            == Sum(s.workers, AtWorker(v)) + AtWorker(v)(y)
  {
    SumUpdate(s.workers, w, y, AtWorker(v));
  }

  lemma QueuePush(queue: seq<RtTask>, work: Work, thread: int, v: Work -> nat)
    ensures Sum(queue + [Task(work, thread)], InQueue(v)) == Sum(queue, InQueue(v)) + v(work)
  {
    SumPush(queue, Task(work, thread), InQueue(v));
  }

  /** What triggerEvent hands to scheduleLock arrives in the queue. */
  lemma {:induction false} QueuedTokens(woken: seq<Waiter>, v: Work -> nat)
    ensures Sum(Queued(woken), InQueue(v)) == Sum(woken, InSlot(v))
  {
    if woken != [] {
      QueuedTokens(woken[1..], v);
      assert Queued(woken)[1..] == Queued(woken[1..]);
    }
  }

  /** The callbacks of the timers a sweep hands out arrive in the vector. */
  lemma {:induction false} HandedTokens(es: seq<Entry>, v: Work -> nat)
    ensures Sum(CallbacksOf(es), InVector(v)) == Sum(es, InTimer(v))
  {
    if es != [] {
      HandedTokens(es[1..], v);
      assert CallbacksOf(es)[1..] == CallbacksOf(es[1..]);
    }
  }

  lemma TakeTokens(s: State, w: nat, v: Work -> nat)
    requires w < |s.workers| && s.workers[w].pc.Scan?
    ensures References(TakeNext(s, w), v) == References(s, v)
  {
    hide Sum;
    WorkerTokensUpdate(s, w, TakeNext(s, w).workers[w], v);
    match FirstEligible(s.queue, w) {
      case Some(i) => SumRemove(s.queue, i, InQueue(v));
      case None =>
    }
  }

  /** A popped fiber is one that was suspended. */
  lemma PoppedIsSuspended(s: State, w: nat)
    requires TokensOk(s) && w < |s.workers| && s.workers[w].pc.Popped? && s.workers[w].pc.task.work.FiberWork?
    ensures var f := s.workers[w].pc.task.work.fiber; f < |s.fibers| && Suspended(s.fibers[f].code)
  {
    var f := s.workers[w].pc.task.work.fiber;
    SumMember(s.workers, w, AtWorker(Waking(f)));
    assert Tokens(s, f) == Owed(s.fibers, f);
  }

  /** The reference in the hand of the worker is used up; the fiber it resumes runs no callback. */
  lemma ResumeFiberReferences(s: State, w: nat, f: nat, v: Work -> nat)
    requires Control(s) && w < |s.workers| && s.workers[w].pc.Popped? && s.workers[w].pc.task.work == FiberWork(f)
    requires ResumeFiber(s, w, f).Some? && !s.fibers[f].code.RunCb?
    ensures References(ResumeFiber(s, w, f).value, v) + v(FiberWork(f)) == References(s, v)
  {
    hide Sum, Counts, TermOk, FibersOk;
    var s' := ResumeFiber(s, w, f).value;
    ResumeFindsReady(s, w, f);
    WorkerTokensUpdate(s, w, s'.workers[w], v);
    SumUpdate(s.fibers, f, s'.fibers[f], InCallback(v));
  }

  lemma ResumeFiberTokens(s: State, w: nat, f: nat, g: nat)
    requires Control(s) && TokensOk(s) && w < |s.workers| && s.workers[w].pc.Popped?
             && s.workers[w].pc.task.work == FiberWork(f)
    requires ResumeFiber(s, w, f).Some?
    ensures var s' := ResumeFiber(s, w, f).value; Tokens(s', g) == Owed(s'.fibers, g)
  {
    PoppedIsSuspended(s, w);
    ResumeFindsReady(s, w, f);
    assert FiberOk(f, s.fibers[f]);
    ResumeFiberReferences(s, w, f, Waking(g));
    assert Tokens(s, g) == Owed(s.fibers, g);
  }

  lemma ResumeCallbackReferences(s: State, w: nat, cb: Callback, v: Work -> nat)
    requires w < |s.workers| && s.workers[w].pc.Popped? && s.workers[w].pc.task.work == CbWork(cb)
    ensures References(ResumeCallback(s, w, cb), v) == References(s, v)
  {
    var s' := ResumeCallback(s, w, cb);
    WorkerTokensUpdate(s, w, s'.workers[w], v);
    SumPush(s.fibers, s'.fibers[|s.fibers|], InCallback(v));
  }

  lemma ResumeCallbackTokens(s: State, w: nat, cb: Callback, g: nat)
    requires TokensOk(s) && w < |s.workers| && s.workers[w].pc.Popped? && s.workers[w].pc.task.work == CbWork(cb)
    ensures var s' := ResumeCallback(s, w, cb); Tokens(s', g) == Owed(s'.fibers, g)
  {
    ResumeCallbackReferences(s, w, cb, Waking(g));
    assert Tokens(s, g) == Owed(s.fibers, g);
  }

  lemma IdleMoveTokens(s: State, w: nat, op: WorkerOp, v: Work -> nat)
    requires w < |s.workers| && TermOk(s.workers) && IdleMove(s, s.workers[w], op).Some?
    ensures var m := IdleMove(s, s.workers[w], op).value;
            References(s.(workers := s.workers[w := m.worker], timers := m.timers), v) == References(s, v)
  {
    var m := IdleMove(s, s.workers[w], op).value;
    IdleMoveStaysIdle(s, s.workers[w], op);
    WorkerTokensUpdate(s, w, m.worker, v);
  }

  lemma ExpireTokens(s: State, w: nat, v: Work -> nat)
    requires w < |s.workers| && s.workers[w].pc.Expiring? && TimersOk(s.timers, s.nextTimer, s.now) && IgnoresUsers(v)
    ensures References(ExpireNext(s, w, s.workers[w].pc.reports), v) == References(s, v)
  {
    var s' := ExpireNext(s, w, s.workers[w].pc.reports);
    WorkerTokensUpdate(s, w, s'.workers[w], v);
    Tm.SweepSum(s.timers, s.now, InTimer(v));
    HandedTokens(Tm.Sweep(s.timers, s.now).1, v);
  }

  lemma HandTokens(s: State, w: nat, v: Work -> nat)
    requires w < |s.workers| && s.workers[w].pc.Carrying? && s.workers[w].pc.cbs != []
    ensures References(HandNext(s, w, s.workers[w].pc.cbs, s.workers[w].pc.reports), v) == References(s, v)
  {
    var pc := s.workers[w].pc;
    WorkerTokensUpdate(s, w, s.workers[w].(pc := Carrying(pc.cbs[1..], pc.reports)), v);
    QueuePush(s.queue, CbWork(pc.cbs[0]), -1, v);
  }

  /** An operation on the event table moves the waiters it wakes to the queue. */
  lemma WithEventsTokens(s: State, r: Ev.Result<nat, Callback>, v: Work -> nat)
    requires r.Done?
    ensures var s' := WithEvents(s, r);
            References(s', v) + Sum(s.events.contexts, Ev.Weight(InSlot(v)))
                == References(s, v) + Sum(r.table.contexts, Ev.Weight(InSlot(v))) + Sum(r.woken, InSlot(v))
  {
    QueuedTokens(r.woken, v);
    SumAppend(s.queue, Queued(r.woken), InQueue(v));
  }

  lemma PcTokens(s: State, w: nat, pc: Pc, v: Work -> nat)
    requires w < |s.workers| && AtWorker(v)(s.workers[w]) == 0 && AtWorker(v)(s.workers[w].(pc := pc)) == 0
    ensures References(Goto(s, w, pc), v) == References(s, v)
  {
    WorkerTokensUpdate(s, w, s.workers[w].(pc := pc), v);
  }

  lemma DispatchTokens(s: State, w: nat, refused: bool, v: Work -> nat)
    requires w < |s.workers| && s.workers[w].pc.Carrying? && s.workers[w].pc.cbs == [] && s.workers[w].pc.reports != []
    requires Ev.Agree(s.events) && s.workers[w].pc.reports[0].fd < |s.events.contexts|
    requires Ev.Fresh(s.events, s.workers[w].pc.reports[0])
    ensures var s' := DispatchNext(s, w, s.workers[w].pc.reports, refused);
            References(s', v) == References(s, v) && s'.fault == s.fault && Ev.Agree(s'.events)
  {
    hide Ev.Agree, Ev.Weight, SlotsOk;
    var reports := s.workers[w].pc.reports;
    PcTokens(s, w, Carrying([], reports[1..]), v);
    Ev.DispatchKeeps(s.events, reports[0], refused, InSlot(v));
    WithEventsTokens(Goto(s, w, Carrying([], reports[1..])), Ev.Dispatch(s.events, reports[0], refused), v);
  }

  /** Outside Resume the fibers stay what they are. */
  lemma PlainStepTokens(s: State, w: nat, op: WorkerOp, v: Work -> nat)
    requires w < |s.workers| && StepNext(s, w, op).Some? && FreshReports(s, Step(w, op)) && !op.Resume?
    requires TermOk(s.workers) && TimersOk(s.timers, s.nextTimer, s.now) && Ev.Agree(s.events) && IgnoresUsers(v)
    ensures References(StepNext(s, w, op).value, v) == References(s, v)
  {
    match op {
      case Take => TakeTokens(s, w, v);
      case Retire => PcTokens(s, w, Scan, v);
      case LeaveIdle => PcTokens(s, w, Scan, v);
      case Expire => ExpireTokens(s, w, v);
      case Hand => HandTokens(s, w, v);
      case Dispatch(refused) => DispatchTokens(s, w, refused, v);
      case _ => IdleMoveTokens(s, w, op, v);
    }
  }

  lemma StepKeepsTokens(s: State, w: nat, op: WorkerOp)
    requires Control(s) && TokensOk(s) && TimersOk(s.timers, s.nextTimer, s.now) && Ev.Agree(s.events)
    requires w < |s.workers| && StepNext(s, w, op).Some? && FreshReports(s, Step(w, op))
    ensures TokensOk(StepNext(s, w, op).value)
  {
    var s' := StepNext(s, w, op).value;
    forall f: nat ensures Tokens(s', f) == Owed(s'.fibers, f) {
      if op.Resume? {
        if s.workers[w].pc.task.work.FiberWork? {
          ResumeFiberTokens(s, w, s.workers[w].pc.task.work.fiber, f);
        } else {
          ResumeCallbackTokens(s, w, s.workers[w].pc.task.work.cb, f);
        }
      } else {
        PlainStepTokens(s, w, op, Waking(f));
        FibersStay(s, w, op);
        assert Tokens(s, f) == Owed(s.fibers, f);
      }
    }
  }
}
