// Every step of a worker's own loop keeps the invariant.

module WorkerSteps {
  import opened Base
  import opened TaskQueue
  import opened Runtime
  import opened Invariants
  import Tm = Timers

  // ---------- workers, fibers and counters ----------

  /** The part of the invariant about workers and fibers. */
  ghost predicate Control(s: State) {
    Holders(s.workers, s.fibers) && FibersOk(s.fibers) && Counts(s.workers, s.active, s.idle) && TermOk(s.workers)
  }

  /** Worker w moves from one pc to another outside any fiber. */
  lemma MoveKeepsControl(s: State, s': State, w: nat)
    requires Control(s) && w < |s.workers| && |s'.workers| == |s.workers| && s'.workers == s.workers[w := s'.workers[w]]
    requires s'.fibers == s.fibers && !s.workers[w].pc.Run? && !s'.workers[w].pc.Run?
    requires s'.active - s.active == TaskCount()(s'.workers[w]) - TaskCount()(s.workers[w])
    requires s'.idle - s.idle == IdleCount()(s'.workers[w]) - IdleCount()(s.workers[w])
    requires s'.workers[w].idleTerm ==> HoldsTask(s'.workers[w].pc) || s'.workers[w].pc in {Scan, IdleOut, Exited}
    ensures Control(s')
  {
    SumUpdate(s.workers, w, s'.workers[w], TaskCount());
    SumUpdate(s.workers, w, s'.workers[w], IdleCount());
  }

  lemma TakeKeepsControl(s: State, w: nat)
    requires Control(s) && w < |s.workers| && s.workers[w].pc.Scan?
    ensures Control(TakeNext(s, w))
  {
    MoveKeepsControl(s, TakeNext(s, w), w);
  }

  /** resume() is issued on READY fibers only, although another worker may have popped the fiber before it gave
      control back: a RUNNING fiber has its mutex taken. */
  lemma ResumeFindsReady(s: State, w: nat, f: nat)
    requires Holders(s.workers, s.fibers) && w < |s.workers| && ResumeFiber(s, w, f).Some?
    ensures f < |s.fibers| && s.fibers[f].holder.None? && (s.fibers[f].state.Ready? || s.fibers[f].state.Term?)
    ensures ResumeFiber(s, w, f).value.fault == s.fault
  {
  }

  lemma ResumeFiberKeepsControl(s: State, w: nat, f: nat)
    requires Control(s) && w < |s.workers| && s.workers[w].pc.Popped? && ResumeFiber(s, w, f).Some?
    ensures Control(ResumeFiber(s, w, f).value) && ResumeFiber(s, w, f).value.fault == s.fault
  {
    hide Sum;
    var s' := ResumeFiber(s, w, f).value;
    ResumeFindsReady(s, w, f);
    SumUpdate(s.workers, w, s'.workers[w], TaskCount());
    SumUpdate(s.workers, w, s'.workers[w], IdleCount());
    if s.fibers[f].state.Term? {
      MoveKeepsControl(s, s', w);
    } else {
      EnterFiberKeepsHolders(s.workers, s.fibers, w, f);
    }
  }

  lemma EnterFiberKeepsHolders(workers: seq<Worker>, fibers: seq<Fiber>, w: nat, f: nat)
    requires Holders(workers, fibers) && FibersOk(fibers) && w < |workers| && !workers[w].pc.Run?
    requires f < |fibers| && fibers[f].holder.None? && fibers[f].state.Ready?
    ensures var workers' := workers[w := workers[w].(pc := Run(f))];
            var fibers' := fibers[f := fibers[f].(state := Running, holder := Some(w),
                code := OnResume(fibers[f].code))];
            Holders(workers', fibers') && FibersOk(fibers')
  {
    assert FiberOk(f, fibers[f]);
  }

  lemma ResumeCallbackKeepsControl(s: State, w: nat, cb: Callback)
    requires Control(s) && w < |s.workers| && s.workers[w].pc.Popped?
    ensures Control(ResumeCallback(s, w, cb))
  {
    var s' := ResumeCallback(s, w, cb);
    SumUpdate(s.workers, w, s'.workers[w], TaskCount());
    SumUpdate(s.workers, w, s'.workers[w], IdleCount());
  }

  lemma IdleMoveStaysIdle(s: State, me: Worker, op: WorkerOp)
    requires IdleMove(s, me, op).Some? && (me.idleTerm ==> HoldsTask(me.pc) || me.pc in {Scan, IdleOut, Exited})
    ensures var m := IdleMove(s, me, op).value;
            && InIdle(me.pc) && InIdle(m.worker.pc) && !me.idleTerm && (m.worker.idleTerm ==> m.worker == Ended)
            && (m.timers == s.timers || m.timers == Tm.GetNext(s.timers, s.now).0)
            && (me.pc.Carrying? ==> me.pc.cbs == []) && !m.worker.pc.Carrying?
  {
  }

  lemma IdleMoveKeepsControl(s: State, w: nat, op: WorkerOp)
    requires Control(s) && w < |s.workers| && IdleMove(s, s.workers[w], op).Some?
    ensures var m := IdleMove(s, s.workers[w], op).value;
            Control(s.(workers := s.workers[w := m.worker], timers := m.timers))
  {
    var m := IdleMove(s, s.workers[w], op).value;
    IdleMoveStaysIdle(s, s.workers[w], op);
    MoveKeepsControl(s, s.(workers := s.workers[w := m.worker], timers := m.timers), w);
  }

  lemma RetireKeepsControl(s: State, w: nat)
    requires Control(s) && w < |s.workers| && s.workers[w].pc.After?
    ensures Control(Goto(s, w, Scan).(active := s.active - 1))
  {
    MoveKeepsControl(s, Goto(s, w, Scan).(active := s.active - 1), w);
  }

  lemma LeaveIdleKeepsControl(s: State, w: nat)
    requires Control(s) && w < |s.workers| && s.workers[w].pc.IdleOut?
    ensures Control(Goto(s, w, Scan).(idle := s.idle - 1))
  {
    MoveKeepsControl(s, Goto(s, w, Scan).(idle := s.idle - 1), w);
  }

  /** Expire, Hand and Dispatch: the worker stays in idle() with a vector in hand. */
  lemma CarryKeepsControl(s: State, s': State, w: nat)
    requires Control(s) && w < |s.workers| && (s.workers[w].pc.Expiring? || s.workers[w].pc.Carrying?)
    requires |s'.workers| == |s.workers| && s'.workers == s.workers[w := s'.workers[w]] && s'.fibers == s.fibers
    requires s'.workers[w].pc.Carrying? && s'.workers[w].idleTerm == s.workers[w].idleTerm
    requires s'.active == s.active && s'.idle == s.idle
    ensures Control(s')
  {
    MoveKeepsControl(s, s', w);
  }

  lemma StepKeepsControl(s: State, w: nat, op: WorkerOp)
    requires Control(s) && w < |s.workers| && StepNext(s, w, op).Some?
    ensures Control(StepNext(s, w, op).value)
  {
    hide Inv, Control, Sum, IdleMove, TakeNext, ResumeFiber, ResumeCallback;
    var pc := s.workers[w].pc;
    match op {
      case Take => TakeKeepsControl(s, w);
      case Resume =>
        if pc.task.work.FiberWork? {
          ResumeFiberKeepsControl(s, w, pc.task.work.fiber);
        } else {
          ResumeCallbackKeepsControl(s, w, pc.task.work.cb);
        }
      case Retire => RetireKeepsControl(s, w);
      case LeaveIdle => LeaveIdleKeepsControl(s, w);
      case Expire => CarryKeepsControl(s, ExpireNext(s, w, pc.reports), w);
      case Hand => CarryKeepsControl(s, HandNext(s, w, pc.cbs, pc.reports), w);
      case Dispatch(refused) => CarryKeepsControl(s, DispatchNext(s, w, pc.reports, refused), w);
      case _ => IdleMoveKeepsControl(s, w, op);
    }
  }

  /** Only Resume touches fibers. */
  lemma FibersStay(s: State, w: nat, op: WorkerOp)
    requires w < |s.workers| && StepNext(s, w, op).Some? && !op.Resume?
    ensures StepNext(s, w, op).value.fibers == s.fibers
  {
  }

  /** Only a dispatch touches the events. */
  lemma EventsStay(s: State, w: nat, op: WorkerOp)
    requires w < |s.workers| && StepNext(s, w, op).Some? && !op.Resume? && !op.Dispatch?
    ensures StepNext(s, w, op).value.events == s.events
  {
    hide Tm.Sweep, IdleMove;
  }

  /** Only a sweep takes timers out of the set or puts any back. */
  lemma TimersStay(s: State, w: nat, op: WorkerOp)
    requires w < |s.workers| && StepNext(s, w, op).Some? && !op.Expire?
    ensures StepNext(s, w, op).value.timers.order == s.timers.order
  {
    hide Tm.Sweep, IdleMove;
    if IdleMove(s, s.workers[w], op).Some? {
      LookKeepsOrder(s, s.workers[w], op);
    }
  }

  lemma LookKeepsOrder(s: State, me: Worker, op: WorkerOp)
    requires IdleMove(s, me, op).Some?
    ensures IdleMove(s, me, op).value.timers.order == s.timers.order
  {
    hide Tm.Sweep;
  }

  /** run() on worker w takes the head of the tasks that w may run, leaves what every other worker sees in order, and
      goes idle, or leaves once its idle fiber has terminated, iff there is none. */
  lemma TakeNextIsFifo(s: State, w: nat, v: nat)
    requires w < |s.workers|
    ensures var s' := TakeNext(s, w);
            var x, mine := s'.workers[w], EligibleFor(s.queue, w);
            && (x.pc.Popped? <==> mine != [])
            && (x.pc.Popped? ==> mine == [x.pc.task] + EligibleFor(s'.queue, w))
            && (mine == [] ==>
                  && s'.queue == s.queue
                  && x.pc == (if s.workers[w].idleTerm then Exited else IdleTop))
            && (forall t ::
                  x.pc == Popped(t) && !Eligible(t, v) ==> EligibleFor(s'.queue, v) == EligibleFor(s.queue, v))
  {
    TakeIsFifo(s.queue, w);
    match FirstEligible(s.queue, w) {
      case Some(i) =>
        EligibleForWithout(s.queue, i, v);
      case None =>
    }
  }
}
