// The invariant holds in every reachable state, and what follows from it.

module Reachable {
  import opened Base
  import opened Runtime
  import opened Invariants
  import opened WorkerSteps
  import opened WorkerTimeouts
  import opened BodyTokens
  import opened BodySteps
  import opened BodyTimeouts
  import opened CallSteps
  import Ev = Events
  import Tm = Timers

  lemma BodyKeeps(s: State, w: nat, f: nat, op: BodyOp)
    requires At(s, w, f, Body) && BodyNext(s, w, f, op).Some? && KeepsWaiters(s, Exec(w, op))
    requires BodyNext(s, w, f, op).value.timers.limbo == map[]
    requires op.SetTimer? && op.recurring ==> op.ms > 0
    requires op.ResetTimer? && Tm.Live(s.timers, op.key).Some? && Tm.Live(s.timers, op.key).value.recurring
             ==> op.newMs > 0
    ensures Parts(BodyNext(s, w, f, op).value) && BodyNext(s, w, f, op).value.fault == s.fault
  {
    hide Ev.Agree, Ev.Weight, SlotsOk, Tm.FrontInv, Tm.Valid;
    BodyControl(s, w, f, op);
    BodyKeepsWaits(s, w, f, op);
    forall g: nat ensures Tokens(BodyNext(s, w, f, op).value, g) == Owed(BodyNext(s, w, f, op).value.fibers, g) {
      BodyKeepsTokens(s, w, f, op, g);
    }
    if op.Watch? || op.Unwatch? || op.CancelIo? || op.Close? {
      BodyEventTokens(s, w, f, op, 0);
    }
  }

  lemma CallKeeps(s: State, w: nat, f: nat, wait: Wait, phase: Phase, op: BodyOp)
    requires At(s, w, f, InCall(wait, phase)) && CallNext(s, w, f, wait, phase, op).Some?
    requires CallNext(s, w, f, wait, phase, op).value.timers.limbo == map[]
    ensures Parts(CallNext(s, w, f, wait, phase, op).value) && CallNext(s, w, f, wait, phase, op).value.fault == s.fault
  {
    hide Ev.Agree, Ev.Weight, SlotsOk, Tm.FrontInv, Tm.Valid, Sum, TimersOk, OwnedTimers, HandlesOk, FiredOk;
    hide InFlightFired;
    match phase {
      case Trying => TryKeeps(s, w, f, wait, op.result);
      case Arming => ArmKeeps(s, w, f, wait);
      case Registering => RegisterKeeps(s, w, f, wait, op.refused, op.code);
      case Registered => SuspendKeeps(s, w, f, Ready, InCall(wait, Registered));
      case Resumed => UnarmKeeps(s, w, f, wait, phase, InCall(wait.(timer := None), Checking));
      case AddFailed(errno) =>
        InsideIsRunning(s, w, f);
        UnarmKeeps(s, w, f, wait, phase,
            Exiting(wait.(timer := None), if wait.kind == ReadWrite then NotAdded(errno) else Probed(op.soOk)));
      case Checking => CheckKeeps(s, w, f, wait, op.soOk);
    }
  }

  lemma ExecKeepsInv(s: State, w: nat, op: BodyOp)
    requires Inv(s) && w < |s.workers| && ExecNext(s, w, op).Some?
    requires KeepsWaiters(s, Exec(w, op)) && ExecNext(s, w, op).value.timers.limbo == map[]
    requires op.SetTimer? && op.recurring ==> op.ms > 0
    requires op.ResetTimer? && Tm.Live(s.timers, op.key).Some? && Tm.Live(s.timers, op.key).value.recurring
             ==> op.newMs > 0
    ensures Inv(ExecNext(s, w, op).value)
  {
    hide Ev.AddEvent, Ev.DelEvent, Ev.CancelEvent, Ev.CancelAll, Ev.Dispatch, Ev.Agree, Ev.Weight, SlotsOk;
    hide Tm.FrontInv, Tm.Valid, TokensOk, References, Owed, Sum, TimersOk, OwnedTimers, HandlesOk, FiredOk;
    hide InFlightFired;
    var f := s.workers[w].pc.fiber;
    assert Parts(s);
    InsideIsRunning(s, w, f);
    match s.fibers[f].code {
      case Body => BodyKeeps(s, w, f, op);
      case RunCb(cb) => CallBackKeeps(s, w, f, cb);
      case Cancelling(call, fd, e) => FireCancelKeeps(s, w, f, call, fd, e, op.refused);
      case Leaving => SuspendKeeps(s, w, f, Term, Over);
      case Asleep => SuspendKeeps(s, w, f, Ready, Asleep);
      case InCall(wait, phase) => CallKeeps(s, w, f, wait, phase, op);
      case Exiting(wait, outcome) => ContinueKeeps(s, w, f, wait, outcome);
      case _ =>
    }
  }

  /** The call is over and its locals go out of scope. */
  lemma ContinueKeeps(s: State, w: nat, f: nat, wait: Wait, outcome: Outcome)
    requires At(s, w, f, Exiting(wait, outcome))
    ensures Parts(SetCode(s, f, Body))
  {
    InsideIsRunning(s, w, f);
    var y := s.fibers[f].(code := Body);
    SetCodeControl(s, f, Body);
    PlainCodeTokens(s, f, Body);
    forall i | 0 <= i < |s.timers.order| ensures s.timers.order[i].cb.TimeoutIo?
      ==> s.timers.order[i].cb.call.fiber != f {
      assert OwnedTimer(s.timers.order[i], s.fibers);
    }
    forall c | c in s.fired && c.fiber == f ensures FiredInTime(c, s.fibers[f := y], s.now) {
      assert FiredInTime(c, s.fibers, s.now);
    }
    FiberChangeWaits(s, f, y);
  }

  lemma PartsOf(s: State)
    requires Inv(s)
    ensures Control(s) && TokensOk(s) && Waits(s) && Ev.Agree(s.events) && !s.fault
    ensures FibersOk(s.fibers) && TermOk(s.workers)
  {
  }

  lemma TickKeepsInv(s: State, ms: nat)
    requires Inv(s)
    ensures Inv(s.(now := s.now + ms))
  {
    var s' := s.(now := s.now + ms);
    forall c | c in s.fired ensures FiredInTime(c, s.fibers, s'.now) {
      assert FiredInTime(c, s.fibers, s.now);
    }
    forall f | 0 <= f < |s.fibers| ensures EnteredBefore(s.fibers[f], s'.now) {
      assert EnteredBefore(s.fibers[f], s.now);
    }
    forall f: nat ensures Tokens(s', f) == Owed(s'.fibers, f) {
      assert Tokens(s, f) == Owed(s.fibers, f);
    }
    assert Waits(s');
  }

  lemma ExternalKeepsInv(s: State, spawn: bool, id: nat, thread: int)
    requires Inv(s) && Next(s, External(spawn, id, thread)).Some?
    ensures Inv(Next(s, External(spawn, id, thread)).value)
  {
    hide Ev.AddEvent, Ev.DelEvent, Ev.CancelEvent, Ev.CancelAll, Ev.Dispatch, Ev.Agree, Ev.Weight, SlotsOk, Tm.Add;
    hide Tm.Cancel, Tm.Refresh, Tm.Reset, Tm.Sweep, Tm.GetNext;
    var s' := Next(s, External(spawn, id, thread)).value;
    assert Parts(s);
    if spawn {
      SpawnControl(s);
      SpawnWaits(s, thread);
    } else {
      PushWaits(s, CbWork(UserCb(id)), thread);
    }
    forall f: nat ensures Tokens(s', f) == Owed(s'.fibers, f) {
      SpawnTokens(s, thread, f);
      ScheduleTokens(s, CbWork(UserCb(id)), thread, Waking(f));
      assert Tokens(s, f) == Owed(s.fibers, f);
    }
  }

  lemma LookKeepsInv(s: State)
    requires Inv(s)
    ensures Inv(s.(timers := Tm.GetNext(s.timers, s.now).0))
  {
    var s' := s.(timers := Tm.GetNext(s.timers, s.now).0);
    Tm.GetNextFront(s.timers, s.now);
    forall f: nat ensures Tokens(s', f) == Owed(s'.fibers, f) {
      assert Tokens(s, f) == Owed(s.fibers, f);
    }
  }

  lemma StopKeepsInv(s: State)
    requires Inv(s)
    ensures Inv(s.(stopping := true))
  {
    forall f: nat ensures Tokens(s.(stopping := true), f) == Owed(s.fibers, f) {
      assert Tokens(s, f) == Owed(s.fibers, f);
    }
  }

  /** What user code does to the timers. */
  lemma BodyTimersApart(s: State, w: nat, f: nat, op: BodyOp)
    requires Tm.Valid(s.timers) && s.timers.limbo == map[]
    requires w < |s.workers| && f < |s.fibers| && BodyNext(s, w, f, op).Some?
    ensures BodyNext(s, w, f, op).value.timers.limbo == map[] <==> FreeInsert(s, Body, op)
  {
    hide Tm.Valid, Tm.Add, Tm.Cancel, Tm.Refresh, Tm.Reset, Tm.Tie, Tm.Free, Tm.Live, Ev.AddEvent, Ev.DelEvent;
    hide Ev.CancelEvent, Ev.CancelAll, Ev.Dispatch, Suspend, WithEvents, AddTimer;
    match op {
      case SetTimer(ms, recurring, id) => NewTimerApart(s, ms, recurring, UserCb(id));
      case Sleep(ms) => NewTimerApart(s, ms, false, WakeFiber(f));
      case DropTimer(k) => Tm.CancelLeavesNoneOut(s.timers, k);
      case RefreshTimer(k) => Tm.RefreshLeavesNoneOut(s.timers, k, s.now);
      case ResetTimer(k, ms, fromNow) => Tm.ResetLeavesNoneOut(s.timers, k, ms, fromNow, s.now);
      case _ => OtherBodyTimers(s, w, f, op);
    }
  }

  /** The operations that leave the timers alone. */
  lemma OtherBodyTimers(s: State, w: nat, f: nat, op: BodyOp)
    requires w < |s.workers| && f < |s.fibers| && BodyNext(s, w, f, op).Some?
    requires !op.SetTimer? && !op.Sleep? && !op.DropTimer? && !op.RefreshTimer? && !op.ResetTimer?
    ensures BodyNext(s, w, f, op).value.timers == s.timers && FreeInsert(s, Body, op)
  {
    hide Ev.AddEvent, Ev.DelEvent, Ev.CancelEvent, Ev.CancelAll;
  }

  lemma NewTimerApart(s: State, ms: nat, recurring: bool, cb: Callback)
    requires Tm.Valid(s.timers) && s.timers.limbo == map[]
    ensures AddTimer(s, ms, recurring, cb).timers.limbo == map[] <==> !Tm.Tie(s.timers.order, s.now + ms)
  {
    Tm.AddLeavesNoneOut(s.timers, Tm.Entry(s.nextTimer, s.now + ms, ms, recurring, cb));
  }

  lemma CallTimersApart(s: State, w: nat, f: nat, wait: Wait, phase: Phase, op: BodyOp)
    requires Tm.Valid(s.timers) && s.timers.limbo == map[]
    requires w < |s.workers| && f < |s.fibers| && CallNext(s, w, f, wait, phase, op).Some?
    ensures CallNext(s, w, f, wait, phase, op).value.timers.limbo == map[] <==> FreeInsert(s, InCall(wait, phase), op)
  {
    hide Tm.Valid, Tm.Add, Tm.Cancel, Tm.Tie;
    if phase.Arming? && wait.timeout.Some? {
      NewTimerApart(s, wait.timeout.value, false, TimeoutIo(wait.call, wait.fd, wait.event));
    } else if wait.timer.Some? {
      Tm.CancelLeavesNoneOut(s.timers, wait.timer.value);
    }
  }

  lemma ExecTimersApart(s: State, w: nat, op: BodyOp)
    requires Tm.Valid(s.timers) && s.timers.limbo == map[] && w < |s.workers| && ExecNext(s, w, op).Some?
    ensures ExecNext(s, w, op).value.timers.limbo == map[] <==> FreeDeadlines(s, Exec(w, op))
  {
    hide Ev.AddEvent, Ev.DelEvent, Ev.CancelEvent, Ev.CancelAll, Ev.Dispatch;
    var f := s.workers[w].pc.fiber;
    var c := s.fibers[f].code;
    hide BodyNext, CallNext, CallBackNext, FreeInsert, Tm.Valid;
    if c.Body? {
      BodyTimersApart(s, w, f, op);
    } else if c.InCall? {
      CallTimersApart(s, w, f, c.wait, c.phase, op);
    } else {
      NothingInserted(s, w, op);
    }
  }

  lemma NothingInserted(s: State, w: nat, op: BodyOp)
    requires w < |s.workers| && ExecNext(s, w, op).Some?
    requires var c := s.fibers[s.workers[w].pc.fiber].code; !c.Body? && !c.InCall?
    ensures ExecNext(s, w, op).value.timers == s.timers && FreeDeadlines(s, Exec(w, op))
  {
    hide Ev.CancelEvent;
  }

  lemma LookLeavesNoneOut(s: State, me: Worker, op: WorkerOp)
    requires IdleMove(s, me, op).Some?
    ensures IdleMove(s, me, op).value.timers.limbo == s.timers.limbo
  {
    hide Tm.Sweep;
  }

  lemma StepTimersApart(s: State, w: nat, op: WorkerOp)
    requires Tm.Valid(s.timers) && s.timers.limbo == map[] && w < |s.workers| && StepNext(s, w, op).Some?
    ensures StepNext(s, w, op).value.timers.limbo == map[] <==> FreeDeadlines(s, Step(w, op))
  {
    hide Tm.Valid, Tm.Sweep, Tm.SweepsApart, Tm.SweepEnds, TakeNext, IdleMove, Ev.Dispatch, FreeInsert, CallsOf;
    if op.Expire? {
      Tm.SweepLeavesNoneOut(s.timers, s.now);
    } else if op.Take? {
      TakeLeavesTimers(s, w);
    } else if IdleMove(s, s.workers[w], op).Some? {
      LookLeavesNoneOut(s, s.workers[w], op);
    }
  }

  lemma TakeLeavesTimers(s: State, w: nat)
    requires w < |s.workers|
    ensures TakeNext(s, w).timers == s.timers
  {
  }

  /** In a reachable state a step leaves every timer with a callback inside the set iff the deadline at which it
      puts one there is free. */
  lemma NoneLeftOutIff(s: State, a: Action)
    requires Inv(s) && Next(s, a).Some?
    ensures Next(s, a).value.timers.limbo == map[] <==> FreeDeadlines(s, a)
  {
    assert Tm.Valid(s.timers) && s.timers.limbo == map[];
    hide Inv, StepNext, ExecNext, Tm.Valid;
    match a {
      case Step(w, op) => StepTimersApart(s, w, op);
      case Exec(w, op) => ExecTimersApart(s, w, op);
      case _ =>
    }
  }

  lemma NextKeepsInv(s: State, a: Action)
    requires Inv(s) && Next(s, a).Some? && Admissible(s, a)
    ensures Inv(Next(s, a).value)
  {
    hide Inv, Ev.AddEvent, Ev.DelEvent, Ev.CancelEvent, Ev.CancelAll, Ev.Dispatch, TimersOk, OwnedTimers, HandlesOk;
    hide FiredOk, InFlightFired, Holders, FibersOk, Counts, TermOk, ExecNext;
    NoneLeftOutIff(s, a);
    match a {
      case Tick(ms) => TickKeepsInv(s, ms);
      case External(spawn, id, thread) => ExternalKeepsInv(s, spawn, id, thread);
      case StopLook => LookKeepsInv(s);
      case Stop => StopKeepsInv(s);
      case Step(w, op) => StepKeepsInv(s, w, op);
      case Exec(w, op) => ExecKeepsInv(s, w, op);
    }
  }

  lemma InitialTokens(n: nat, now: int, splitStop: bool, f: nat)
    ensures Tokens(Initial(n, now, splitStop), f) == 0
  {
    var s := Initial(n, now, splitStop);
    Ev.EmptyTableWeighsNothing(InSlot(Waking(f)));
    SumZero(s.workers, AtWorker(Waking(f)));
  }

  lemma InitialControl(n: nat, now: int, splitStop: bool)
    ensures Control(Initial(n, now, splitStop))
  {
    var s := Initial(n, now, splitStop);
    SumZero(s.workers, TaskCount());
    SumZero(s.workers, IdleCount());
  }

  lemma BareWaits(s: State)
    requires Ev.Agree(s.events) && SlotsOk(s.events.contexts) && s.timers == Tm.EmptySet(s.now)
    requires s.queue == [] && s.fibers == [] && s.fired == {}
    requires forall w :: 0 <= w < |s.workers| ==> s.workers[w].pc.Scan?
    ensures Waits(s)
  {
    hide Ev.Agree, SlotsOk;
    assert InFlightFired(s.queue, s.workers, s.fibers, s.fired);
  }

  lemma InitialWaits(n: nat, now: int, splitStop: bool)
    ensures Waits(Initial(n, now, splitStop))
  {
    Ev.EmptyTableAgrees<nat, Callback>();
    Ev.EmptyTableWeighsNothing(NotUser());
    BareWaits(Initial(n, now, splitStop));
  }

  lemma InitialInv(n: nat, now: int, splitStop: bool)
    ensures Inv(Initial(n, now, splitStop))
  {
    InitialControl(n, now, splitStop);
    InitialWaits(n, now, splitStop);
    forall f: nat ensures Tokens(Initial(n, now, splitStop), f) == 0 {
      InitialTokens(n, now, splitStop, f);
    }
    assert TokensOk(Initial(n, now, splitStop));
  }

  /** The invariant holds after every run. */
  lemma {:induction false} RunKeepsInv(s: State, actions: seq<Action>)
    requires Inv(s) && Runs(s, actions)
    ensures Inv(Final(s, actions))
    decreases |actions|
  {
    hide Inv, Next, Admissible;
    if actions != [] {
      NextKeepsInv(s, actions[0]);
      RunKeepsInv(Next(s, actions[0]).value, actions[1..]);
    }
  }
}
