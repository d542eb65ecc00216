// Short runs into states in which one promise of the runtime fails.

module ShortRuns {
  import opened Base
  import opened TaskQueue
  import opened Runtime
  import opened Invariants
  import opened Guarantees
  import opened Witness
  import Ev = Events
  import Tm = Timers

  const First: RtTask := Task(FiberWork(0), -1)
  const SecondTask: RtTask := Task(FiberWork(1), -1)

  // ---------- one worker ----------

  function Start(): State {
    Blank([Top], true)
  }

  /** Fiber 0 runs user code. */
  function Running(): State {
    Start().(workers := [On(Run(0))], active := 1, fibers := [Inside(0, Body)])
  }

  lemma StartFirst()
    ensures Reaches(Start(), Running())
  {
    Stay(Start());
    hide Reaches;
    var s1 := Start().(queue := [First], fibers := [NewFiber]);
    Go(Start(), Start(), External(true, 0, -1), s1);
    var s2 := s1.(workers := [On(Popped(First))], queue := [], active := 1);
    GoTake(Start(), s1, 0, s2);
    GoStep(Start(), s2, 0, Resume, Running());
  }

  /** Fiber 0 has given control back; then a second fiber comes and is resumed. */
  lemma StartSecond(s: State, first: Fiber, s': State)
    requires Reaches(Start(), s) && s.workers == [On(After)] && s.queue == [] && s.active == 1 && s.idle == 0
    requires s.fibers == [first] && !s.stopping && !s.fault
    requires s' == s.(workers := [On(Run(1))], fibers := [first, Inside(0, Body)])
    ensures Reaches(Start(), s')
  {
    hide Reaches, CallNext, ExecNext;
    var s1 := s.(workers := [Top], active := 0);
    GoStep(Start(), s, 0, Retire, s1);
    var s2 := s1.(queue := [SecondTask], fibers := [first, NewFiber]);
    Go(Start(), s1, External(true, 0, -1), s2);
    var s3 := s2.(workers := [On(Popped(SecondTask))], queue := [], active := 1);
    GoTake(Start(), s2, 0, s3);
    GoStep(Start(), s3, 0, Resume, s');
  }

  // ---------- an interrupted connect ----------

  const Dialing := Wait(Call(0, 0), Connect, 5, Ev.Write, None, 0, false, None)

  /** Fiber f is about to return from a call of this kind with EINTR. */
  predicate ReturnsEintr(s: State, f: nat, kind: Kind) {
    && f < |s.fibers| && s.fibers[f].code.Exiting?
    && s.fibers[f].code.wait.kind == kind && ErrnoOf(s.fibers[f].code.outcome) == Some(EINTR)
  }

  lemma InterruptedConnect() returns (actions: seq<Action>)
    ensures Runs(Initial(1, 0, true), actions) && ReturnsEintr(Final(Initial(1, 0, true), actions), 0, Connect)
  {
    StartFirst();
    var s1 := Running().(fibers := [Fiber(FiberState.Running, Some(0), InCall(Dialing, Trying), 1)]);
    var s2 := Running().(
      fibers := [Fiber(FiberState.Running, Some(0), Exiting(Dialing, SysReturn(Failure(EINTR))), 1)]);
    assert Reaches(Start(), s2) by {
      hide Reaches;
      GoExec(Start(), Running(), 0, Enter(Connect, 5, Ev.Write, None), s1);
      GoExec(Start(), s1, 0, Try(Failure(EINTR)), s2);
    }
    actions := TakeRun(1, true, s2);
  }

  /** The failure of an interrupted system call reaches the caller in some run iff the call is a connect. */
  lemma EintrIffConnect(kind: Kind)
    ensures (exists n, start, splitStop, actions, f: nat ::
               && Runs(Initial(n, start, splitStop), actions)
               && ReturnsEintr(Final(Initial(n, start, splitStop), actions), f, kind))
            <==> kind == Connect
  {
    if kind == Connect {
      var actions := InterruptedConnect();
    } else {
      forall n, start, splitStop, actions, f: nat | Runs(Initial(n, start, splitStop), actions)
        ensures !ReturnsEintr(Final(Initial(n, start, splitStop), actions), f, ReadWrite)
      {
        NoEintrFromDoIo(n, start, splitStop, actions, f);
      }
    }
  }

  lemma NoEintrFromDoIo(n: nat, start: int, splitStop: bool, actions: seq<Action>, f: nat)
    requires Runs(Initial(n, start, splitStop), actions)
    ensures !ReturnsEintr(Final(Initial(n, start, splitStop), actions), f, ReadWrite)
  {
    var s := Final(Initial(n, start, splitStop), actions);
    if ReturnsEintr(s, f, ReadWrite) {
      CallLeavesNothing(n, start, splitStop, actions, s, f);
    }
  }

  // ---------- two sleepers with one deadline ----------

  const Nap: Entry := Tm.Entry(0, 10, 10, false, WakeFiber(0))

  /** Fiber 0 sleeps for 10 and fiber 1 runs, at the same time. */
  function OneSleeps(): State {
    Running().(
      workers := [On(Run(1))], timers := Timers([Nap], true, 0, None), nextTimer := 1,
      fibers := [Sleeper, Inside(0, Body)])
  }

  lemma OneSleepsIsReached()
    ensures Reaches(Start(), OneSleeps())
  {
    StartFirst();
    hide Reaches;
    var s1 := Running().(timers := Timers([Nap], true, 0, None), nextTimer := 1, fibers := [Inside(0, Asleep)]);
    GoExec(Start(), Running(), 0, Sleep(10), s1);
    var s2 := s1.(workers := [On(After)], fibers := [Sleeper]);
    GoExec(Start(), s1, 0, Yield, s2);
    StartSecond(s2, Sleeper, OneSleeps());
  }

  /** In a reachable state, the second of two fibers that sleep equally long at the same time is asleep with
      nothing left that could wake it. */
  lemma TiedSleeperIsLost() returns (actions: seq<Action>)
    ensures Runs(Initial(1, 0, true), actions)
    ensures var s := Next(Final(Initial(1, 0, true), actions), Exec(0, Sleep(10)));
            s.Some? && |s.value.fibers| == 2 && s.value.fibers[1].code.Asleep? && Tokens(s.value, 1) == 0
  {
    hide Next, Runs, Final, Initial, OneSleeps, Inv;
    OneSleepsIsReached();
    actions := TakeRun(1, true, OneSleeps());
    ReachedHasInv(1, 0, true, actions, OneSleeps());
    SecondSleep();
    TiedToken(OneSleeps());
  }

  function AlsoAsleep(s: State): State
    requires |s.fibers| > 1
  {
    SetCode(AddTimer(s, 10, false, WakeFiber(1)), 1, Asleep)
  }

  lemma SecondSleep()
    ensures |OneSleeps().fibers| == 2 && OneSleeps().fibers[1].code.Body? && OneSleeps().now == 0
    ensures OneSleeps().timers.order == [Nap]
    ensures Next(OneSleeps(), Exec(0, Sleep(10))) == Some(AlsoAsleep(OneSleeps()))
  {
  }

  lemma TiedToken(s: State)
    requires Inv(s) && |s.fibers| == 2 && s.fibers[1].code.Body? && s.now == 0 && s.timers.order == [Nap]
    ensures Tokens(AlsoAsleep(s), 1) == 0
  {
    assert Tm.Find([Nap], 10) == Some(0);
    hide Inv, References;
    SleepNeedsADistinctDeadline(s, 1, 10);
  }

  // ---------- delEvent on a waiting fiber ----------

  const Reading := Wait(Call(0, 0), ReadWrite, 5, Ev.Read, None, 0, false, None)

  function Reader(phase: Phase): Fiber {
    Fiber(FiberState.Running, Some(0), InCall(Reading, phase), 1)
  }

  const Parked := Fiber(Ready, None, InCall(Reading, Registered), 1)

  /** Fiber 0 waits in a do_io for fd 5 to become readable and fiber 1 runs. */
  function OneReads(): State {
    Running().(workers := [On(Run(1))], events := Watched(), fibers := [Parked, Inside(0, Body)])
  }

  lemma ReaderEnters()
    ensures Reaches(Start(), Running().(fibers := [Reader(Registering)]))
  {
    StartFirst();
    hide Reaches;
    var s1 := Running().(fibers := [Reader(Trying)]);
    GoExec(Start(), Running(), 0, Enter(ReadWrite, 5, Ev.Read, None), s1);
    var s2 := s1.(fibers := [Reader(Arming)]);
    GoExec(Start(), s1, 0, Try(Failure(EAGAIN)), s2);
    var s3 := s2.(fibers := [Reader(Registering)]);
    GoExec(Start(), s2, 0, Arm, s3);
  }

  lemma ReaderRegisters()
    ensures Reaches(Start(), Running().(events := Watched(), fibers := [Reader(Registered)]))
  {
    ReaderEnters();
    var s3 := Running().(fibers := [Reader(Registering)]);
    var s4 := s3.(events := Watched(), fibers := [Reader(Registered)]);
    hide Reaches, Watched, BodyNext, CallBackNext;
    RegisterRead();
    assert Queued([]) == [];
    assert SameParts(RegisterNext(s3, 0, s3.fibers[0].code.wait, false, 0), s4);
    hide RegisterNext, SameParts;
    GoExec(Start(), s3, 0, Register(false, 0), s4);
  }

  lemma OneReadsIsReached()
    ensures Reaches(Start(), OneReads())
  {
    ReaderRegisters();
    hide Reaches, Watched;
    var s1 := Running().(events := Watched(), fibers := [Reader(Registered)]);
    var s2 := s1.(workers := [On(After)], fibers := [Parked]);
    GoExec(Start(), s1, 0, Yield, s2);
    StartSecond(s2, Parked, OneReads());
  }

  /** In a reachable state, delEvent on a registration a fiber waits on leaves the fiber suspended with nothing
      that could wake it. */
  lemma DroppedWaiterIsLost() returns (actions: seq<Action>)
    ensures Runs(Initial(1, 0, true), actions)
    ensures var s := Next(Final(Initial(1, 0, true), actions), Exec(0, Unwatch(5, Ev.Read, false)));
            s.Some? && |s.value.fibers| == 2 && s.value.fibers[0] == Parked && Tokens(s.value, 0) == 0
  {
    hide Next, Runs, Final, Initial, OneReads, Inv, BodyNext, CallNext, ExecNext, StepNext, IdleMove, TakeNext;
    hide ResumeFiber, ResumeCallback, ExpireNext, HandNext, DispatchNext, CallBackNext, Ev.Agree, Ev.Weight, SlotsOk;
    hide TokensOk, References, Owed;
    OneReadsIsReached();
    actions := TakeRun(1, true, OneReads());
    OneTokenPerWait(1, 0, true, actions, OneReads(), 0);
    ReachedHasInv(1, 0, true, actions, OneReads());
    Unwatched();
    WaiterToken(OneReads());
  }

  lemma Unwatched()
    ensures |OneReads().events.contexts| == Ev.InitialSize && OneReads().fibers == [Parked, Inside(0, Body)]
    ensures OneReads().events.contexts[5].events.read && OneReads().events.contexts[5].read.fiber == Some(0)
    ensures Next(OneReads(), Exec(0, Unwatch(5, Ev.Read, false)))
            == Some(WithEvents(OneReads(), Ev.DelEvent(OneReads().events, 5, Ev.Read, false)))
  {
    hide Ev.DelEvent;
  }

  lemma WaiterToken(s: State)
    requires Inv(s) && |s.events.contexts| == Ev.InitialSize && Tokens(s, 0) == 1
    requires s.events.contexts[5].events.read && s.events.contexts[5].read.fiber == Some(0)
    ensures var s' := WithEvents(s, Ev.DelEvent(s.events, 5, Ev.Read, false));
            s'.fibers == s.fibers && Tokens(s', 0) == 0
  {
    assert Ev.Agree(s.events);
    assert s.events.contexts[5].events.Has(Ev.Read) && s.events.contexts[5].Slot(Ev.Read).fiber == Some(0);
    EventsLeaveFibers(s, Ev.DelEvent(s.events, 5, Ev.Read, false));
    hide Inv, References, Ev.Agree, Ev.DelEvent, Sum, WithEvents;
    DelEventDrops(s, 5, Ev.Read, 0);
    WaiterWeighs(s, 5, Ev.Read);
  }

  lemma EventsLeaveFibers(s: State, r: Ev.Result<nat, Callback>)
    ensures WithEvents(s, r).fibers == s.fibers
  {
  }

  // ---------- two fibers that read one fd ----------

  /** The call of fiber 1. */
  function Second(c: Code): State {
    OneReads().(fibers := [Parked, Fiber(FiberState.Running, Some(0), c, 1)])
  }

  const AlsoReading := Wait(Call(1, 0), ReadWrite, 5, Ev.Read, None, 0, false, None)

  lemma SecondRegisters()
    ensures Reaches(Start(), Second(InCall(AlsoReading, Registering)))
  {
    OneReadsIsReached();
    hide Reaches, Watched;
    GoExec(Start(), OneReads(), 0, Enter(ReadWrite, 5, Ev.Read, None), Second(InCall(AlsoReading, Trying)));
    GoExec(Start(), Second(InCall(AlsoReading, Trying)), 0, Try(Failure(EAGAIN)), Second(InCall(AlsoReading, Arming)));
    GoExec(Start(), Second(InCall(AlsoReading, Arming)), 0, Arm, Second(InCall(AlsoReading, Registering)));
  }

  lemma AddRegistered()
    ensures |Watched().contexts| == Ev.InitialSize && Ev.Registered(Watched(), 5, Ev.Read)
    ensures Ev.AddEvent(Watched(), 5, Ev.Read, Ev.FiberWaiter(1), false) == Ev.Done(Watched(), [], false)
  {
  }

  lemma SecondFails()
    ensures Reaches(Start(), Second(InCall(AlsoReading, AddFailed(EAGAIN))))
  {
    hide Reaches, Watched, Ev.AddEvent, Ev.Registered, BodyNext, CallBackNext;
    SecondRegisters();
    AddRegistered();
    assert Queued([]) == [];
    var s, s' := Second(InCall(AlsoReading, Registering)), Second(InCall(AlsoReading, AddFailed(EAGAIN)));
    assert SameParts(RegisterNext(s, 1, AlsoReading, false, 0), s');
    hide RegisterNext, SameParts;
    GoExec(Start(), s, 0, Register(false, 0), s');
  }

  /** In some run a do_io is about to return EAGAIN: another fiber waits for the same event. */
  lemma SecondReaderGetsEagain() returns (actions: seq<Action>)
    ensures Runs(Initial(1, 0, true), actions)
    ensures var s := Final(Initial(1, 0, true), actions);
            && |s.fibers| == 2 && s.fibers[0] == Parked && s.fibers[1].code.Exiting?
            && s.fibers[1].code.wait.kind == ReadWrite && ErrnoOf(s.fibers[1].code.outcome) == Some(EAGAIN)
  {
    hide Reaches, Runs, Final, Initial, Watched, Next;
    SecondFails();
    GoExec(Start(), Second(InCall(AlsoReading, AddFailed(EAGAIN))), 0, Unarm(true),
        Second(Exiting(AlsoReading, NotAdded(EAGAIN))));
    actions := TakeRun(1, true, Second(Exiting(AlsoReading, NotAdded(EAGAIN))));
  }

  // ---------- a report that is no longer fresh ----------

  function Start2(): State {
    Blank([Top, Top], false)
  }

  const OnRead: Callback := UserCb(1)
  const OnWrite: Callback := UserCb(2)
  const Both5 := Ev.Report(5, true, true, false)

  /** The table with one context, that of fd 5. */
  function Only(read: bool, write: bool): EventTable {
    var ctx := Ev.FdContext(
      Ev.Bits(read, write),
      if read then Ev.Filled<nat, Callback>(Ev.CbWaiter(OnRead)) else Ev.Cleared(),
      if write then Ev.Filled<nat, Callback>(Ev.CbWaiter(OnWrite)) else Ev.Cleared());
    Ev.Table(
      Ev.EmptyTable().contexts[5 := ctx],
      (if read then 1 else 0) + (if write then 1 else 0),
      if read || write then map[5 := Ev.Bits(read, write)] else map[])
  }

  lemma WatchBoth()
    ensures |Ev.EmptyTable<nat, Callback>().contexts| == Ev.InitialSize
    ensures |Only(true, false).contexts| == Ev.InitialSize
    ensures Ev.AddEvent(Ev.EmptyTable(), 5, Ev.Read, Ev.CbWaiter(OnRead), false) == Ev.Done(Only(true, false), [], true)
    ensures Ev.AddEvent(Only(true, false), 5, Ev.Write, Ev.CbWaiter(OnWrite), false)
            == Ev.Done(Only(true, true), [], true)
  {
    assert Ev.EmptyTable<nat, Callback>().contexts[5] == Ev.FreshContext<nat, Callback>();
  }

  lemma CancelRead()
    ensures Ev.CancelEvent(Only(true, true), 5, Ev.Read, false)
            == Ev.Done(Only(false, true), [Ev.CbWaiter(OnRead)], true)
  {
  }

  lemma StaleBits()
    ensures |Only(false, true).contexts| == Ev.InitialSize
    ensures Ev.Dispatch(Only(false, true), Both5, false) == Ev.AssertFailed
  {
  }

  /** Fiber 0 has registered callbacks for both events of fd 5 on worker 0. */
  function Watching(): State {
    Start2().(workers := [On(Run(0)), Top], active := 1, events := Only(true, true), fibers := [Inside(0, Body)])
  }

  /** Worker 1 carries the report of both while only one of them is still registered. */
  function Outdated(): State {
    Watching().(
      workers := [On(Run(0)), On(Carrying([], [Both5]))], queue := [Task(CbWork(OnRead), -1)], idle := 1,
      events := Only(false, true))
  }

  function Running2(): State {
    Start2().(workers := [On(Run(0)), Top], active := 1, fibers := [Inside(0, Body)])
  }

  lemma StartOfTwo()
    ensures Reaches(Start2(), Running2())
  {
    Stay(Start2());
    hide Reaches;
    var s1 := Start2().(queue := [First], fibers := [NewFiber]);
    Go(Start2(), Start2(), External(true, 0, -1), s1);
    var s2 := s1.(workers := [On(Popped(First)), Top], queue := [], active := 1);
    GoTake(Start2(), s1, 0, s2);
    GoStep(Start2(), s2, 0, Resume, Running2());
  }

  lemma BothRegister()
    ensures Reaches(Start2(), Watching())
  {
    StartOfTwo();
    hide Reaches, Only;
    WatchBoth();
    assert Queued([]) == [];
    var s4 := Running2().(events := Only(true, false));
    GoExec(Start2(), Running2(), 0, Watch(5, Ev.Read, 1, false), s4);
    GoExec(Start2(), s4, 0, Watch(5, Ev.Write, 2, false), Watching());
  }

  lemma BothReported()
    ensures Reaches(Start2(), Watching().(workers := [On(Run(0)), On(Expiring([Both5]))], idle := 1))
  {
    BothRegister();
    hide Reaches;
    var s1 := Watching().(workers := [On(Run(0)), On(IdleTop)], idle := 1);
    GoTake(Start2(), Watching(), 1, s1);
    var s2 := s1.(workers := [On(Run(0)), On(Blocking)]);
    GoIdle(Start2(), s1, 1, CheckAll, s2);
    var s3 := s2.(workers := [On(Run(0)), On(Polling)]);
    GoIdle(Start2(), s2, 1, Block, s3);
    GoIdle(Start2(), s3, 1, Poll([Both5]), s3.(workers := [On(Run(0)), On(Expiring([Both5]))]));
  }

  lemma NothingExpires()
    ensures Reaches(Start2(), Watching().(workers := [On(Run(0)), On(Carrying([], [Both5]))], idle := 1))
  {
    BothReported();
    hide Reaches, Only, ExpireNext, Tm.Sweep, Tm.SweepEnds, Tm.SweepsApart;
    var s := Watching().(workers := [On(Run(0)), On(Expiring([Both5]))], idle := 1);
    SweepNone(s.timers, 0);
    ExpireNone(s, 1, [Both5]);
    GoStep(Start2(), s, 1, Expire, s.(workers := [On(Run(0)), On(Carrying([], [Both5]))]));
  }

  lemma OutdatedIsReached()
    ensures Reaches(Start2(), Outdated())
  {
    NothingExpires();
    CancelRead();
    CallbackHanded();
    hide Reaches, Only, Ev.CancelEvent, Queued;
    var s := Watching().(workers := [On(Run(0)), On(Carrying([], [Both5]))], idle := 1);
    GoExec(Start2(), s, 0, CancelIo(5, Ev.Read, false), Outdated());
  }

  lemma CallbackHanded()
    ensures Queued([Ev.CbWaiter(OnRead)]) == [Task(CbWork(OnRead), -1)]
  {
    var woken: seq<Waiter> := [Ev.CbWaiter(OnRead)];
    assert woken[1..] == [];
  }

  /** With two workers a report can be stale when its turn comes: one worker has taken it from epoll_wait, the
      other cancels one of its events, and the assertion of triggerEvent fails on the first. */
  lemma StaleReportFailsAnAssert() returns (actions: seq<Action>)
    ensures Runs(Initial(2, 0, false), actions)
    ensures var s := Next(Final(Initial(2, 0, false), actions), Step(1, Dispatch(false)));
            s.Some? && s.value.fault
  {
    hide Next, Runs, Final, Initial, Outdated;
    OutdatedIsReached();
    actions := TakeRun(2, false, Outdated());
    OutdatedFails();
  }

  lemma OutdatedFails()
    ensures Next(Outdated(), Step(1, Dispatch(false))).Some? && Next(Outdated(), Step(1, Dispatch(false))).value.fault
  {
    StaleBits();
    hide Only, Ev.Dispatch;
  }
}
