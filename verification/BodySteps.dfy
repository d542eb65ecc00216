// Every step of a task fiber keeps the invariant.

module BodySteps {
  import opened Base
  import opened Runtime
  import opened Invariants
  import opened WorkerSteps
  import opened WorkerTimeouts
  import opened BodyTokens
  import Ev = Events
  import Tm = Timers

  /** Fiber f runs on worker w at code `c`, and the parts of the invariant that the tokens depend on hold. */
  ghost predicate At(s: State, w: nat, f: nat, c: Code) {
    && Inside(s, w, f) && s.fibers[f].code == c
    && Control(s) && TokensOk(s) && Waits(s)
  }

  // ---------- user code ----------

  lemma BodyControl(s: State, w: nat, f: nat, op: BodyOp)
    requires At(s, w, f, Body) && BodyNext(s, w, f, op).Some?
    ensures Control(BodyNext(s, w, f, op).value)
  {
    hide Tm.Add, Tm.Cancel, Tm.Refresh, Tm.Reset, Ev.AddEvent, Ev.DelEvent, Ev.CancelEvent, Ev.CancelAll, TokensOk;
    hide Waits, Sum, Holders, FibersOk, Counts, TermOk;
    InsideIsRunning(s, w, f);
    match op {
      case Spawn(_) => SpawnControl(s);
      case Sleep(_) => SetCodeControl(s, f, Asleep);
      case Enter(kind, fd, e, timeout) => FiberControl(s, f, BodyNext(s, w, f, op).value.fibers[f]);
      case Finish => SuspendControl(s, w, f, Term, Over);
      case _ => OtherBodyControl(s, w, f, op);
    }
  }

  /** The operations that change neither workers nor fibers. */
  lemma OtherBodyControl(s: State, w: nat, f: nat, op: BodyOp)
    requires At(s, w, f, Body) && BodyNext(s, w, f, op).Some?
    requires !op.Spawn? && !op.Sleep? && !op.Enter? && !op.Finish?
    ensures Control(BodyNext(s, w, f, op).value)
  {
    hide Tm.Add, Tm.Cancel, Tm.Refresh, Tm.Reset, Ev.AddEvent, Ev.DelEvent, Ev.CancelEvent, Ev.CancelAll, TokensOk;
    hide Waits, Sum, Holders, FibersOk, Counts, TermOk;
  }

  /** The event operations of user code. */
  lemma BodyEventTokens(s: State, w: nat, f: nat, op: BodyOp, g: nat)
    requires At(s, w, f, Body) && BodyNext(s, w, f, op).Some? && KeepsWaiters(s, Exec(w, op))
    requires op.Watch? || op.Unwatch? || op.CancelIo? || op.Close?
    ensures var s' := BodyNext(s, w, f, op).value;
            Tokens(s', g) == Tokens(s, g) && s'.fibers == s.fibers && s'.fault == s.fault
  {
    hide References, Ev.AddEvent, Ev.DelEvent, Ev.CancelEvent, Ev.CancelAll, Ev.Agree, Ev.Weight, SlotsOk, TokensOk;
    hide Tm.Add, Tm.Cancel, Tm.Refresh, Tm.Reset, Tm.Sweep, Tm.GetNext, TimersOk, OwnedTimers, HandlesOk, FiredOk;
    hide InFlightFired, Control, Queued, AddTimer, Suspend;
    match op {
      case Watch(fd, e, id, refused) =>
        Ev.AddEventKeeps(s.events, fd, e, Ev.CbWaiter(UserCb(id)), refused, InSlot(Waking(g)));
        EventTokens(s, Ev.AddEvent(s.events, fd, e, Ev.CbWaiter(UserCb(id)), refused), 0, Waking(g));
      case Unwatch(fd, e, refused) =>
        Ev.DelEventKeeps(s.events, fd, e, refused, InSlot(Waking(g)));
        if fd < |s.events.contexts| {
          UserSlotTokens(s, fd, e, g);
        }
        EventTokens(s, Ev.DelEvent(s.events, fd, e, refused), 0, Waking(g));
      case CancelIo(fd, e, refused) =>
        Ev.CancelEventKeeps(s.events, fd, e, refused, InSlot(Waking(g)));
        EventTokens(s, Ev.CancelEvent(s.events, fd, e, refused), 0, Waking(g));
      case Close(fd, refused) =>
        Ev.CancelAllKeeps(s.events, fd, refused, InSlot(Waking(g)));
        EventTokens(s, Ev.CancelAll(s.events, fd, refused), 0, Waking(g));
    }
  }

  lemma BodyTimerTokens(s: State, w: nat, f: nat, op: BodyOp, g: nat)
    requires At(s, w, f, Body) && BodyNext(s, w, f, op).Some? && BodyNext(s, w, f, op).value.timers.limbo == map[]
    requires op.SetTimer? || op.DropTimer? || op.RefreshTimer? || op.ResetTimer?
    ensures var s' := BodyNext(s, w, f, op).value; Tokens(s', g) == Tokens(s, g) && s'.fibers == s.fibers
  {
    hide References, Tm.Cancel, Tm.Refresh, Tm.Reset, Tm.Add, TokensOk, Ev.Agree, SlotsOk, Control, OwnedTimers;
    hide HandlesOk, FiredOk, InFlightFired, WithEvents, Suspend;
    match op {
      case SetTimer(ms, recurring, id) => AddTimerTokens(s, ms, recurring, UserCb(id), Waking(g));
      case DropTimer(k) => CancelTokens(s, k, Waking(g));
      case RefreshTimer(k) => RefreshTokens(s, k, Waking(g));
      case ResetTimer(k, ms, fromNow) => ResetTokens(s, k, ms, fromNow, Waking(g));
    }
  }

  lemma SleepTokens(s: State, f: nat, ms: nat, g: nat)
    requires TokensOk(s) && Waits(s) && f < |s.fibers| && s.fibers[f].code == Body
    requires AddTimer(s, ms, false, WakeFiber(f)).timers.limbo == map[]
    ensures var s' := SetCode(AddTimer(s, ms, false, WakeFiber(f)), f, Asleep); Tokens(s', g) == Owed(s'.fibers, g)
  {
    NoTie(s, ms, false, WakeFiber(f));
    AddTimerTokens(s, ms, false, WakeFiber(f), Waking(g));
    SetCodeTokens(AddTimer(s, ms, false, WakeFiber(f)), f, Asleep, g);
    assert Tokens(s, g) == Owed(s.fibers, g);
  }

  lemma EnterTokens(s: State, w: nat, f: nat, op: BodyOp, g: nat)
    requires At(s, w, f, Body) && op.Enter?
    ensures var s' := BodyNext(s, w, f, op).value; Tokens(s', g) == Owed(s'.fibers, g)
  {
    hide Sum;
    SumUpdate(s.fibers, f, BodyNext(s, w, f, op).value.fibers[f], InCallback(Waking(g)));
    assert Tokens(s, g) == Owed(s.fibers, g);
  }

  /** A fiber ends, or yields in the middle of what it does. */
  lemma SuspendBalance(s: State, w: nat, f: nat, state: FiberState, c: Code, g: nat)
    requires Inside(s, w, f) && Control(s) && TokensOk(s) && !s.fibers[f].code.RunCb?
    requires (state.Ready? && c == s.fibers[f].code && Suspended(c))
             || (state.Term? && c == Over && (s.fibers[f].code == Leaving || s.fibers[f].code == Body))
    ensures var s' := Suspend(s, w, f, state, c); Tokens(s', g) == Owed(s'.fibers, g)
  {
    InsideIsRunning(s, w, f);
    assert Tokens(s, g) == Owed(s.fibers, g);
    hide References, TokensOk, Control;
    SuspendTokens(s, w, f, state, c, g);
  }

  lemma BodyKeepsTokens(s: State, w: nat, f: nat, op: BodyOp, g: nat)
    requires At(s, w, f, Body) && BodyNext(s, w, f, op).Some?
    requires KeepsWaiters(s, Exec(w, op)) && BodyNext(s, w, f, op).value.timers.limbo == map[]
    ensures var s' := BodyNext(s, w, f, op).value; Tokens(s', g) == Owed(s'.fibers, g)
  {
    hide Ev.Agree, Ev.Weight, SlotsOk, Tm.FrontInv, Tm.Valid, Sum, TimersOk, OwnedTimers, HandlesOk, FiredOk;
    hide InFlightFired, FreeDeadlines, PositivePeriods, KeepsWaiters, FreshReports, DistinctDeadlines, FreeInsert;
    assert Tokens(s, g) == Owed(s.fibers, g);
    hide References, Owed, AddTimer, Tm.Cancel, Tm.Refresh, Tm.Reset, Ev.AddEvent, Ev.DelEvent, Ev.CancelEvent,
        Ev.CancelAll, Suspend, SetCode, WithEvents;
    match op {
      case Schedule(id, thread) => ScheduleTokens(s, CbWork(UserCb(id)), thread, Waking(g));
      case Spawn(thread) => SpawnTokens(s, thread, g);
      case Sleep(ms) => SleepTokens(s, f, ms, g);
      case Enter(_, _, _, _) => EnterTokens(s, w, f, op, g);
      case Finish => SuspendBalance(s, w, f, Term, Over, g);
      case Watch(_, _, _, _) => BodyEventTokens(s, w, f, op, g);
      case Unwatch(_, _, _) => BodyEventTokens(s, w, f, op, g);
      case CancelIo(_, _, _) => BodyEventTokens(s, w, f, op, g);
      case Close(_, _) => BodyEventTokens(s, w, f, op, g);
      case _ => BodyTimerTokens(s, w, f, op, g);
    }
  }
}
