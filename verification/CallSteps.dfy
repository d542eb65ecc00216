// The steps of do_io, connect_with_timeout and of queued callbacks keep the invariant.

module CallSteps {
  import opened Base
  import opened Runtime
  import opened Invariants
  import opened WorkerSteps
  import opened WorkerTimeouts
  import opened BodyTokens
  import opened BodySteps
  import opened BodyTimeouts
  import Ev = Events
  import Tm = Timers

  // ---------- one change of one fiber ----------

  /** Fiber f becomes y; the timers and the fired calls that concern f fit its new code. */
  lemma FiberChangeWaits(s: State, f: nat, y: Fiber)
    requires Waits(s) && f < |s.fibers|
    requires var fibers := s.fibers[f := y];
             && (forall i ::
                   0 <= i < |s.timers.order| && s.timers.order[i].cb.TimeoutIo? && s.timers.order[i].cb.call.fiber == f
                   ==> OwnedTimer(s.timers.order[i], fibers))
             && (forall i :: 0 <= i < |s.timers.order| ==> OwnHandle(y, s.timers.order[i]))
             && HandleMade(y, s.nextTimer)
             && (forall c :: c in s.fired && c.fiber == f ==> FiredInTime(c, fibers, s.now))
             && (HasWait(y.code) && y.code.wait.cancelled ==> y.code.wait.call in s.fired)
             && (y.code.RunCb? ==> CbFired(y.code.cb, s.fired)) && EnteredBefore(y, s.now)
    ensures Waits(s.(fibers := s.fibers[f := y]))
  {
    var fibers := s.fibers[f := y];
    forall i | 0 <= i < |s.timers.order| ensures OwnedTimer(s.timers.order[i], fibers) {
      assert OwnedTimer(s.timers.order[i], s.fibers);
    }
    forall g, i | 0 <= g < |fibers| && 0 <= i < |s.timers.order| ensures OwnHandle(fibers[g], s.timers.order[i]) {
      assert g != f ==> OwnHandle(s.fibers[g], s.timers.order[i]);
    }
    forall g | 0 <= g < |fibers| ensures HandleMade(fibers[g], s.nextTimer) {
      assert HandleMade(s.fibers[g], s.nextTimer);
    }
    forall c | c in s.fired ensures FiredInTime(c, fibers, s.now) {
      assert FiredInTime(c, s.fibers, s.now);
    }
    FiberKeepsFired(s.fibers, f, y, s.fired);
  }

  /** The whole invariant except that no assert failed. */
  ghost predicate Parts(s: State) {
    Control(s) && TokensOk(s) && Waits(s)
  }

  // ---------- the system call ----------

  lemma SetCodeParts(s: State, f: nat, c: Code)
    requires Parts(s) && f < |s.fibers| && FiberOk(f, s.fibers[f].(code := c))
             && SameWait(s.fibers[f], s.fibers[f].(code := c))
    requires !Suspended(s.fibers[f].code) && !Suspended(c) && !s.fibers[f].code.RunCb? && !c.RunCb?
    ensures Parts(SetCode(s, f, c)) && SetCode(s, f, c).fault == s.fault
  {
    SetCodeControl(s, f, c);
    SetCodeWaits(s, f, c);
    PlainCodeTokens(s, f, c);
  }

  lemma TryKeeps(s: State, w: nat, f: nat, wait: Wait, r: SysResult)
    requires At(s, w, f, InCall(wait, Trying))
    ensures Parts(SetCode(s, f, TryCode(wait, r)))
  {
    InsideIsRunning(s, w, f);
    SetCodeParts(s, f, TryCode(wait, r));
  }

  /** A change between codes that carry no token, and are owed one both or neither. */
  lemma PlainCodeTokens(s: State, f: nat, c: Code)
    requires TokensOk(s) && f < |s.fibers|
    requires (Suspended(s.fibers[f].code) <==> Suspended(c)) && !s.fibers[f].code.RunCb? && !c.RunCb?
    ensures TokensOk(SetCode(s, f, c))
  {
    hide References;
    forall g: nat ensures Tokens(SetCode(s, f, c), g) == Owed(SetCode(s, f, c).fibers, g) {
      SetCodeTokens(s, f, c, g);
      assert Tokens(s, g) == Owed(s.fibers, g);
    }
  }

  // ---------- the condition timer ----------

  /** The timer the call adds. */
  function TimerOf(s: State, wait: Wait): Entry
    requires wait.timeout.Some?
  {
    Tm.Entry(s.nextTimer, s.now + wait.timeout.value, wait.timeout.value, false,
        TimeoutIo(wait.call, wait.fd, wait.event))
  }

  /** The call stores the handle of the timer it is about to add. */
  lemma StoreHandle(s: State, w: nat, f: nat, wait: Wait)
    requires At(s, w, f, InCall(wait, Arming)) && wait.timeout.Some?
    ensures var s1 := s.(nextTimer := s.nextTimer + 1);
            var fibers := s.fibers[f := s.fibers[f].(code := InCall(wait.(timer := Some(s.nextTimer)), Registering))];
            Waits(s1.(fibers := fibers)) && forall g :: 0 <= g < |fibers| ==> OwnHandle(fibers[g], TimerOf(s, wait))
  {
    InsideIsRunning(s, w, f);
    var y := s.fibers[f].(code := InCall(wait.(timer := Some(s.nextTimer)), Registering));
    NextHandleIsNew(s.timers.order, s.fibers, s.nextTimer, TimerOf(s, wait));
    var s1 := s.(nextTimer := s.nextTimer + 1);
    assert Waits(s1);
    forall i | 0 <= i < |s.timers.order| ensures s.timers.order[i].cb.TimeoutIo?
      ==> s.timers.order[i].cb.call.fiber != f {
      assert OwnedTimer(s.timers.order[i], s.fibers);
    }
    forall c | c in s.fired && c.fiber == f ensures FiredInTime(c, s.fibers[f := y], s.now) {
      assert FiredInTime(c, s.fibers, s.now);
    }
    assert EnteredBefore(s.fibers[f], s.now);
    FiberChangeWaits(s1, f, y);
  }

  lemma ArmWaits(s: State, w: nat, f: nat, wait: Wait)
    requires At(s, w, f, InCall(wait, Arming)) && wait.timeout.Some? && ArmNext(s, f, wait).timers.limbo == map[]
    ensures Waits(ArmNext(s, f, wait))
  {
    hide Ev.Agree, Ev.Weight, SlotsOk, Tm.Add, Tm.Cancel, Tm.Refresh, Tm.Reset, Tm.Sweep, Tm.GetNext;
    InsideIsRunning(s, w, f);
    var e := TimerOf(s, wait);
    var s' := ArmNext(s, f, wait);
    StoreHandle(s, w, f, wait);
    AddTimersOk(s, wait.timeout.value, false, e.cb);
    Tm.AddMembers(s.timers, e);
    assert EnteredBefore(s.fibers[f], s.now);
    assert s'.fibers == s.fibers[f := s.fibers[f].(code := InCall(wait.(timer := Some(s.nextTimer)), Registering))];
    NewEntry(s.timers.order, s'.timers.order, e, s'.fibers, s.nextTimer + 1);
  }

  lemma ArmTokens(s: State, w: nat, f: nat, wait: Wait)
    requires At(s, w, f, InCall(wait, Arming)) && wait.timeout.Some?
    ensures var s1 := AddTimer(s, wait.timeout.value, false, TimerOf(s, wait).cb);
            Control(s1) && TokensOk(s1) && s1.fibers == s.fibers
  {
    var cb := TimerOf(s, wait).cb;
    forall g: nat ensures Tokens(AddTimer(s, wait.timeout.value, false, cb), g) == Owed(s.fibers, g) {
      AddTimerTokens(s, wait.timeout.value, false, cb, Waking(g));
      assert Tokens(s, g) == Owed(s.fibers, g);
    }
  }

  lemma ArmKeeps(s: State, w: nat, f: nat, wait: Wait)
    requires At(s, w, f, InCall(wait, Arming)) && ArmNext(s, f, wait).timers.limbo == map[]
    ensures Parts(ArmNext(s, f, wait))
  {
    hide Control, TokensOk, Waits, AddTimer;
    InsideIsRunning(s, w, f);
    if wait.timeout.None? {
      SetCodeParts(s, f, InCall(wait, Registering));
    } else {
      ArmWaits(s, w, f, wait);
      ArmTokens(s, w, f, wait);
      var s1 := AddTimer(s, wait.timeout.value, false, TimerOf(s, wait).cb);
      var c := InCall(wait.(timer := Some(s.nextTimer)), Registering);
      PlainCodeTokens(s1, f, c);
      SetCodeControl(s1, f, c);
    }
  }

  lemma UnarmWaits(s: State, w: nat, f: nat, wait: Wait, phase: Phase, c: Code)
    requires At(s, w, f, InCall(wait, phase)) && HasWait(c) && c.wait == wait.(timer := None)
    ensures Waits(UnarmNext(s, f, wait, c))
  {
    InsideIsRunning(s, w, f);
    var s1 := if wait.timer.None? then s else s.(timers := Tm.Cancel(s.timers, wait.timer.value).0);
    if wait.timer.Some? {
      CancelWaits(s, wait.timer.value);
    }
    var y := s.fibers[f].(code := c);
    forall i | 0 <= i < |s1.timers.order| ensures s1.timers.order[i].cb.TimeoutIo?
      ==> s1.timers.order[i].cb.call.fiber != f {
      assert OwnedTimer(s1.timers.order[i], s.fibers);
    }
    forall d | d in s.fired && d.fiber == f ensures FiredInTime(d, s.fibers[f := y], s.now) {
      assert FiredInTime(d, s.fibers, s.now);
    }
    assert EnteredBefore(s.fibers[f], s.now);
    FiberChangeWaits(s1, f, y);
  }

  /** The handle of the call leads to no timer but its own. */
  lemma OwnTimerOnly(s: State, f: nat, wait: Wait)
    requires Waits(s) && f < |s.fibers| && HasWait(s.fibers[f].code) && s.fibers[f].code.wait == wait
    requires wait.timer.Some?
    ensures Tm.Valid(s.timers) && s.timers.limbo == map[]
    ensures var live := Tm.Live(s.timers, wait.timer.value);
            live.Some? ==> live.value.cb.TimeoutIo? && live.value.cb.call == wait.call
  {
    var k := wait.timer.value;
    if Tm.Live(s.timers, k).Some? {
      Tm.LiveMeans(s.timers, k, Tm.Live(s.timers, k).value);
      assert OwnHandle(s.fibers[f], s.timers.order[Tm.FindKey(s.timers.order, k).value]);
    }
  }

  lemma UnarmTokens(s: State, w: nat, f: nat, wait: Wait, phase: Phase, c: Code)
    requires At(s, w, f, InCall(wait, phase)) && !phase.Registered? && !Suspended(c) && !c.RunCb?
    ensures TokensOk(UnarmNext(s, f, wait, c))
  {
    if wait.timer.None? {
      PlainCodeTokens(s, f, c);
    } else {
      var k := wait.timer.value;
      var s1 := s.(timers := Tm.Cancel(s.timers, k).0);
      OwnTimerOnly(s, f, wait);
      forall g: nat ensures Tokens(s1, g) == Owed(s1.fibers, g) {
        CancelTokens(s, k, Waking(g));
        assert Tokens(s, g) == Owed(s.fibers, g);
      }
      PlainCodeTokens(s1, f, c);
    }
  }

  lemma UnarmKeeps(s: State, w: nat, f: nat, wait: Wait, phase: Phase, c: Code)
    requires At(s, w, f, InCall(wait, phase)) && !phase.Registered?
    requires c == InCall(wait.(timer := None), Checking)
             || (c.Exiting? && c.wait == wait.(timer := None) && OutcomeOk(c.wait, c.outcome))
    ensures Parts(UnarmNext(s, f, wait, c))
  {
    hide Ev.Agree, Ev.Weight, SlotsOk, Tm.Add, Tm.Cancel, Tm.Refresh, Tm.Reset, Tm.Sweep, Tm.GetNext, Tm.FrontInv;
    hide Tm.Valid;
    InsideIsRunning(s, w, f);
    UnarmWaits(s, w, f, wait, phase, c);
    UnarmTokens(s, w, f, wait, phase, c);
    SetCodeControl(s, f, c);
  }

  lemma CheckKeeps(s: State, w: nat, f: nat, wait: Wait, soOk: bool)
    requires At(s, w, f, InCall(wait, Checking))
    ensures Parts(SetCode(s, f, CheckCode(wait, soOk)))
  {
    InsideIsRunning(s, w, f);
    SetCodeParts(s, f, CheckCode(wait, soOk));
  }

  // ---------- addEvent ----------

  lemma AddEventTokens(s: State, f: nat, wait: Wait, refused: bool, g: nat)
    requires Ev.Agree(s.events)
    ensures var r := Ev.AddEvent(s.events, wait.fd, wait.event, Ev.FiberWaiter(f), refused);
            && r.Done? && WithEvents(s, r).fibers == s.fibers && WithEvents(s, r).fault == s.fault
            && Tokens(WithEvents(s, r), g) == Tokens(s, g) + if r.ret && g == f then 1 else 0
  {
    var r := Ev.AddEvent(s.events, wait.fd, wait.event, Ev.FiberWaiter(f), refused);
    Ev.AddEventKeeps(s.events, wait.fd, wait.event, Ev.FiberWaiter(f), refused, InSlot(Waking(g)));
    EventTokens(s, r, if r.ret && g == f then 1 else 0, Waking(g));
  }

  /** The waiter enters the fd context exactly when the fiber is owed a wake-up. */
  lemma RegisteredIsOwed(s: State, f: nat, wait: Wait, r: Ev.Result<nat, Callback>, errno: Errno, g: nat)
    requires TokensOk(s) && f < |s.fibers| && s.fibers[f].code == InCall(wait, Registering)
             && s.fibers[f].state.Running?
    requires r.Done? && Tokens(WithEvents(s, r), g) == Tokens(s, g) + if r.ret && g == f then 1 else 0
    ensures var s' := AfterAddEvent(s, f, wait, r, errno); Tokens(s', g) == Owed(s'.fibers, g) && s'.fault == s.fault
  {
    hide References, TokensOk, Queued;
    TokensAt(s, g);
    SetCodeTokens(WithEvents(s, r), f, InCall(wait, if r.ret then Registered else AddFailed(errno)), g);
  }

  lemma WithEventsControl(s: State, r: Ev.Result<nat, Callback>)
    requires Control(s)
    ensures Control(WithEvents(s, r)) && WithEvents(s, r).fibers == s.fibers
  {
  }

  lemma FaultIsNoPart(s: State)
    requires Control(s) && Waits(s)
    ensures var s' := s.(fault := true); Control(s') && Waits(s')
  {
  }

  lemma AfterAddEventKeeps(s: State, w: nat, f: nat, wait: Wait, r: Ev.Result<nat, Callback>, errno: Errno)
    requires At(s, w, f, InCall(wait, Registering)) && AddErrnoOk(wait.kind, errno)
    requires r.Done? && Ev.Agree(r.table) && Sum(r.table.contexts, Ev.Weight(NotUser())) + Sum(r.woken, NotUser()) == 0
    ensures Control(AfterAddEvent(s, f, wait, r, errno)) && Waits(AfterAddEvent(s, f, wait, r, errno))
  {
    hide Control, TokensOk, Waits;
    InsideIsRunning(s, w, f);
    WithEventsWaits(s, r);
    WithEventsControl(s, r);
    var c := InCall(wait, if r.ret then Registered else AddFailed(errno));
    SetCodeWaits(WithEvents(s, r), f, c);
    SetCodeControl(WithEvents(s, r), f, c);
    FaultIsNoPart(SetCode(WithEvents(s, r), f, c));
  }

  lemma RegisterKeeps(s: State, w: nat, f: nat, wait: Wait, refused: bool, code: int)
    requires At(s, w, f, InCall(wait, Registering)) && |s.events.contexts| >= Ev.InitialSize
    ensures var s' := RegisterNext(s, f, wait, refused, code); Parts(s') && s'.fault == s.fault
  {
    hide Ev.AddEvent, Ev.DelEvent, Ev.CancelEvent, Ev.CancelAll, Ev.Dispatch, Tm.FrontInv, Tm.Valid, TimersOk;
    hide OwnedTimers, HandlesOk, FiredOk, InFlightFired;
    InsideIsRunning(s, w, f);
    var r := Ev.AddEvent(s.events, wait.fd, wait.event, Ev.FiberWaiter(f), refused);
    var errno := AddErrno(s, wait, code);
    Ev.AddEventKeeps(s.events, wait.fd, wait.event, Ev.FiberWaiter(f), refused, NotUser());
    AfterAddEventKeeps(s, w, f, wait, r, errno);
    var s' := AfterAddEvent(s, f, wait, r, errno);
    forall g: nat ensures Tokens(s', g) == Owed(s'.fibers, g) {
      AddEventTokens(s, f, wait, refused, g);
      RegisteredIsOwed(s, f, wait, r, errno, g);
    }
    AddEventTokens(s, f, wait, refused, 0);
    RegisteredIsOwed(s, f, wait, r, errno, 0);
  }

  // ---------- giving control back ----------

  /** A fiber that has armed its wait is suspended with its one token; one that finishes has none. */
  lemma SuspendKeeps(s: State, w: nat, f: nat, state: FiberState, c: Code)
    requires Inside(s, w, f) && Parts(s) && !s.fibers[f].code.RunCb?
    requires (state.Ready? && c == s.fibers[f].code && Suspended(c))
             || (state.Term? && c == Over && (s.fibers[f].code == Leaving || s.fibers[f].code == Body))
    ensures Parts(Suspend(s, w, f, state, c))
  {
    InsideIsRunning(s, w, f);
    SuspendControl(s, w, f, state, c);
    SuspendWaits(s, w, f, state, c);
    hide Control, Waits, References, Owed, Suspend;
    forall g: nat ensures Tokens(Suspend(s, w, f, state, c), g) == Owed(Suspend(s, w, f, state, c).fibers, g) {
      SuspendBalance(s, w, f, state, c, g);
    }
  }

  // ---------- queued callbacks ----------

  /** The mark of a call whose timer has fired. */
  lemma MarkWaits(s: State, call: Call)
    requires Waits(s) && FibersOk(s.fibers) && Unmarked(s, call) && call in s.fired
    ensures var code := s.fibers[call.fiber].code;
            Waits(SetCode(s, call.fiber, InCall(code.wait.(cancelled := true), code.phase)))
  {
    hide Ev.Agree, SlotsOk, TimersOk, InFlightFired;
    var h := call.fiber;
    var code := s.fibers[h].code;
    var y := s.fibers[h].(code := InCall(code.wait.(cancelled := true), code.phase));
    assert FiberOk(h, s.fibers[h]);
    forall i | 0 <= i < |s.timers.order| ensures OwnedTimer(s.timers.order[i], s.fibers[h := y])
      && OwnHandle(y, s.timers.order[i]) {
      assert OwnedTimer(s.timers.order[i], s.fibers) && OwnHandle(s.fibers[h], s.timers.order[i]);
    }
    forall d | d in s.fired ensures FiredInTime(d, s.fibers[h := y], s.now) {
      assert FiredInTime(d, s.fibers, s.now);
    }
    assert HandleMade(s.fibers[h], s.nextTimer) && EnteredBefore(s.fibers[h], s.now);
    FiberChangeWaits(s, h, y);
  }

  lemma RunningHasFired(s: State, f: nat, cb: Callback)
    requires Waits(s) && f < |s.fibers| && s.fibers[f].code == RunCb(cb) && cb.TimeoutIo?
    ensures cb.call in s.fired
  {
  }

  lemma MarkKeeps(s: State, w: nat, f: nat, call: Call, fd: nat, e: Ev.Event)
    requires At(s, w, f, RunCb(TimeoutIo(call, fd, e))) && Unmarked(s, call)
    ensures var code := s.fibers[call.fiber].code;
            Parts(SetCode(s, call.fiber, InCall(code.wait.(cancelled := true), code.phase)))
  {
    hide Waits, TokensOk, Holders, Counts, TermOk, SetCode;
    var code := s.fibers[call.fiber].code;
    var c := InCall(code.wait.(cancelled := true), code.phase);
    assert FiberOk(call.fiber, s.fibers[call.fiber]);
    hide Control, FibersOk;
    SetCodeControl(s, call.fiber, c);
    PlainCodeTokens(s, call.fiber, c);
    RunningHasFired(s, f, TimeoutIo(call, fd, e));
    MarkWaits(s, call);
  }

  /** The callback fiber goes on without the token of its callback. */
  lemma LeaveCallback(s: State, w: nat, f: nat, cb: Callback, c: Code)
    requires Inside(s, w, f) && Parts(s) && s.fibers[f].code == RunCb(cb) && !cb.WakeFiber?
    requires c == Body || c == Leaving || c.Cancelling?
    ensures Parts(SetCode(s, f, c))
  {
    hide Sum, TimersOk, OwnedTimers, HandlesOk, FiredOk, InFlightFired;
    InsideIsRunning(s, w, f);
    SetCodeControl(s, f, c);
    SetCodeWaits(s, f, c);
    forall g: nat ensures Tokens(SetCode(s, f, c), g) == Owed(SetCode(s, f, c).fibers, g) {
      SetCodeTokens(s, f, c, g);
      assert Tokens(s, g) == Owed(s.fibers, g);
    }
  }

  /** The callback of sleep(): its token moves to the queue. */
  lemma WakeKeeps(s: State, w: nat, f: nat, h: nat)
    requires At(s, w, f, RunCb(WakeFiber(h)))
    ensures Parts(CallBackNext(s, f, WakeFiber(h)))
  {
    hide Ev.Agree, Ev.Weight, SlotsOk, Sum;
    InsideIsRunning(s, w, f);
    var s1 := SetCode(s, f, Leaving);
    SetCodeControl(s, f, Leaving);
    SetCodeWaits(s, f, Leaving);
    PushWaits(s1, FiberWork(h), -1);
    forall g: nat ensures Tokens(CallBackNext(s, f, WakeFiber(h)), g) == Owed(s1.fibers, g) {
      SetCodeTokens(s, f, Leaving, g);
      ScheduleTokens(s1, FiberWork(h), -1, Waking(g));
      assert Tokens(s, g) == Owed(s.fibers, g);
    }
  }

  lemma CallBackKeeps(s: State, w: nat, f: nat, cb: Callback)
    requires At(s, w, f, RunCb(cb))
    ensures Parts(CallBackNext(s, f, cb)) && CallBackNext(s, f, cb).fault == s.fault
  {
    hide Inv, Ev.Agree, Ev.Weight, SlotsOk, Tm.FrontInv, Tm.Valid;
    match cb {
      case UserCb(_) => LeaveCallback(s, w, f, cb, Body);
      case WakeFiber(h) => WakeKeeps(s, w, f, h);
      case TimeoutIo(call, fd, e) =>
        if Unmarked(s, call) {
          var code := s.fibers[call.fiber].code;
          MarkKeeps(s, w, f, call, fd, e);
          LeaveCallback(SetCode(s, call.fiber, InCall(code.wait.(cancelled := true), code.phase)), w, f, cb,
              Cancelling(call, fd, e));
        } else {
          LeaveCallback(s, w, f, cb, Leaving);
        }
    }
  }

  /** The cancelEvent of a timeout callback moves the waiter it finds, if any, to the queue. */
  lemma FireCancelKeeps(s: State, w: nat, f: nat, call: Call, fd: nat, e: Ev.Event, refused: bool)
    requires At(s, w, f, Cancelling(call, fd, e))
    ensures var s' := SetCode(WithEvents(s, Ev.CancelEvent(s.events, fd, e, refused)), f, Leaving);
            Parts(s') && s'.fault == s.fault
  {
    hide Ev.AddEvent, Ev.DelEvent, Ev.CancelEvent, Ev.CancelAll, Ev.Dispatch, Tm.FrontInv, Tm.Valid;
    InsideIsRunning(s, w, f);
    var r := Ev.CancelEvent(s.events, fd, e, refused);
    var s1 := WithEvents(s, r);
    Ev.CancelEventKeeps(s.events, fd, e, refused, NotUser());
    WithEventsWaits(s, r);
    forall g: nat ensures Tokens(s1, g) == Owed(s1.fibers, g) {
      Ev.CancelEventKeeps(s.events, fd, e, refused, InSlot(Waking(g)));
      EventTokens(s, r, 0, Waking(g));
      assert Tokens(s, g) == Owed(s.fibers, g);
    }
    SetCodeParts(s1, f, Leaving);
  }
}
