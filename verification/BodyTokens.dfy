// Every step of a task fiber keeps the control state and the wake-up tokens.

module BodyTokens {
  import opened Base
  import opened TaskQueue
  import opened Runtime
  import opened Invariants
  import opened WorkerSteps
  import opened WorkerTokens
  import Ev = Events
  import Tm = Timers

  /** Worker w is inside fiber f. */
  predicate Inside(s: State, w: nat, f: nat) {
    w < |s.workers| && s.workers[w].pc == Run(f) && f < |s.fibers|
  }

  // ---------- control ----------

  lemma InsideIsRunning(s: State, w: nat, f: nat)
    requires Control(s) && Inside(s, w, f)
    ensures s.fibers[f].state.Running? && s.fibers[f].holder == Some(w) && FiberOk(f, s.fibers[f])
  {
  }

  lemma SetCodeControl(s: State, f: nat, c: Code)
    requires Control(s) && f < |s.fibers| && FiberOk(f, s.fibers[f].(code := c))
    ensures Control(SetCode(s, f, c))
  {
  }

  lemma FiberControl(s: State, f: nat, y: Fiber)
    requires Control(s) && f < |s.fibers| && FiberOk(f, y) && y.state == s.fibers[f].state
             && y.holder == s.fibers[f].holder
    ensures Control(s.(fibers := s.fibers[f := y]))
  {
  }

  lemma SpawnControl(s: State)
    requires Control(s)
    ensures Control(s.(fibers := s.fibers + [Fiber(Ready, None, Start, 0)]))
  {
  }

  lemma SuspendControl(s: State, w: nat, f: nat, state: FiberState, c: Code)
    requires Control(s) && Inside(s, w, f) && !state.Running?
             && FiberOk(f, s.fibers[f].(state := state, holder := None, code := c))
    ensures Control(Suspend(s, w, f, state, c))
  {
    var s' := Suspend(s, w, f, state, c);
    SumUpdate(s.workers, w, s'.workers[w], TaskCount());
    SumUpdate(s.workers, w, s'.workers[w], IdleCount());
    assert Holders(s'.workers, s'.fibers);
  }

  // ---------- tokens ----------

  lemma TokensAt(s: State, g: nat)
    requires TokensOk(s)
    ensures Tokens(s, g) == Owed(s.fibers, g)
  {
  }

  lemma SetCodeReferences(s: State, f: nat, c: Code, v: Work -> nat)
    requires f < |s.fibers|
    ensures References(SetCode(s, f, c), v) + InCallback(v)(s.fibers[f])
            == References(s, v) + InCallback(v)(s.fibers[f].(code := c))
  {
    SumUpdate(s.fibers, f, s.fibers[f].(code := c), InCallback(v));
  }

  lemma SetCodeTokens(s: State, f: nat, c: Code, g: nat)
    requires f < |s.fibers|
    ensures Tokens(SetCode(s, f, c), g) + InCallback(Waking(g))(s.fibers[f])
            == Tokens(s, g) + InCallback(Waking(g))(s.fibers[f].(code := c))
    ensures Owed(SetCode(s, f, c).fibers, g) == if g == f then (if Suspended(c) then 1 else 0) else Owed(s.fibers, g)
  {
    SetCodeReferences(s, f, c, Waking(g));
  }

  lemma SuspendReferences(s: State, w: nat, f: nat, state: FiberState, c: Code, v: Work -> nat)
    requires Inside(s, w, f)
    ensures References(Suspend(s, w, f, state, c), v) + InCallback(v)(s.fibers[f])
            == References(s, v) + InCallback(v)(s.fibers[f].(code := c))
  {
    var s' := Suspend(s, w, f, state, c);
    SumUpdate(s.fibers, f, s'.fibers[f], InCallback(v));
    SumUpdate(s.workers, w, s'.workers[w], AtWorker(v));
  }

  lemma SuspendTokens(s: State, w: nat, f: nat, state: FiberState, c: Code, g: nat)
    requires Inside(s, w, f)
    ensures Tokens(Suspend(s, w, f, state, c), g) + InCallback(Waking(g))(s.fibers[f])
            == Tokens(s, g) + InCallback(Waking(g))(s.fibers[f].(code := c))
    ensures Owed(Suspend(s, w, f, state, c).fibers, g)
            == if g == f then (if Suspended(c) then 1 else 0) else Owed(s.fibers, g)
  {
    SuspendReferences(s, w, f, state, c, Waking(g));
  }

  lemma SpawnReferences(s: State, thread: int, v: Work -> nat)
    ensures var s' := s.(fibers := s.fibers + [Fiber(Ready, None, Start, 0)],
                         queue := s.queue + [Task(FiberWork(|s.fibers|), thread)]);
            References(s', v) == References(s, v) + v(FiberWork(|s.fibers|))
  {
    SumPush(s.fibers, Fiber(Ready, None, Start, 0), InCallback(v));
    QueuePush(s.queue, FiberWork(|s.fibers|), thread, v);
  }

  lemma SpawnTokens(s: State, thread: int, g: nat)
    ensures var s' := s.(fibers := s.fibers + [Fiber(Ready, None, Start, 0)],
                         queue := s.queue + [Task(FiberWork(|s.fibers|), thread)]);
            Tokens(s', g) - Tokens(s, g) == Owed(s'.fibers, g) - Owed(s.fibers, g)
  {
    SpawnReferences(s, thread, Waking(g));
  }

  /** A timer that finds its deadline free carries its token; one that does not loses it. */
  lemma AddTimerTokens(s: State, ms: nat, recurring: bool, cb: Callback, v: Work -> nat)
    requires Tm.Valid(s.timers)
    ensures References(AddTimer(s, ms, recurring, cb), v)
            == References(s, v) + if Tm.Tie(s.timers.order, s.now + ms) then 0 else v(CbWork(cb))
  {
    Tm.AddSum(s.timers, Tm.Entry(s.nextTimer, s.now + ms, ms, recurring, cb), InTimer(v));
  }

  lemma NoTie(s: State, ms: nat, recurring: bool, cb: Callback)
    requires TimersOk(s.timers, s.nextTimer, s.now) && AddTimer(s, ms, recurring, cb).timers.limbo == map[]
    ensures !Tm.Tie(s.timers.order, s.now + ms) && Tm.Live(s.timers, s.nextTimer).None?
  {
    Tm.AddLeavesNoneOut(s.timers, Tm.Entry(s.nextTimer, s.now + ms, ms, recurring, cb));
  }

  /** Cancelling a timer that v does not count. */
  lemma CancelTokens(s: State, k: nat, v: Work -> nat)
    requires TimersOk(s.timers, s.nextTimer, s.now)
    requires Tm.Live(s.timers, k).Some? ==> v(CbWork(Tm.Live(s.timers, k).value.cb)) == 0
    ensures References(s.(timers := Tm.Cancel(s.timers, k).0), v) == References(s, v)
  {
    Tm.CancelSum(s.timers, k, InTimer(v));
  }

  lemma RefreshTokens(s: State, k: nat, v: Work -> nat)
    requires TimersOk(s.timers, s.nextTimer, s.now) && Tm.Refresh(s.timers, k, s.now).0.limbo == map[]
    ensures References(s.(timers := Tm.Refresh(s.timers, k, s.now).0), v) == References(s, v)
  {
    Tm.RefreshSum(s.timers, k, s.now, InTimer(v));
  }

  lemma ResetTokens(s: State, k: nat, ms: nat, fromNow: bool, v: Work -> nat)
    requires TimersOk(s.timers, s.nextTimer, s.now) && Tm.Reset(s.timers, k, ms, fromNow, s.now).0.limbo == map[]
    ensures References(s.(timers := Tm.Reset(s.timers, k, ms, fromNow, s.now).0), v) == References(s, v)
  {
    Tm.ResetSum(s.timers, k, ms, fromNow, s.now, InTimer(v));
  }

  lemma ScheduleTokens(s: State, work: Work, thread: int, v: Work -> nat)
    ensures References(s.(queue := s.queue + [Task(work, thread)]), v) == References(s, v) + v(work)
  {
    QueuePush(s.queue, work, thread, v);
  }

  /** A registration that no fiber waits on carries no token. */
  lemma UserSlotTokens(s: State, fd: nat, e: Ev.Event, g: nat)
    requires SlotsOk(s.events.contexts) && fd < |s.events.contexts| && s.events.contexts[fd].Slot(e).fiber.None?
    ensures Sum(s.events.contexts[fd].Slot(e).Target(), InSlot(Waking(g))) == 0
  {
    SumMember(s.events.contexts, fd, Ev.Weight(NotUser()));
    var target := s.events.contexts[fd].Slot(e).Target();
    assert Sum(target, NotUser()) == 0;
    if target != [] {
      SumMember(target, 0, NotUser());
    }
    SumZero(target, InSlot(Waking(g)));
  }

  lemma EventTokens(s: State, r: Ev.Result<nat, Callback>, gained: nat, v: Work -> nat)
    requires r.Done? && Sum(r.table.contexts, Ev.Weight(InSlot(v))) + Sum(r.woken, InSlot(v))
             == Sum(s.events.contexts, Ev.Weight(InSlot(v))) + gained
    ensures References(WithEvents(s, r), v) == References(s, v) + gained && WithEvents(s, r).fibers == s.fibers
  {
    WithEventsTokens(s, r, v);
  }
}
