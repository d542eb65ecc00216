// Runs in which a call loses its timeout: its callback comes between two attempts, or before the first attempt has
// registered, or the kernel refuses its cancellation.

module LostTimeout {
  import opened Base
  import opened TaskQueue
  import opened Runtime
  import opened Witness
  import opened TimeoutFate
  import Ev = Events
  import Tm = Timers

  // ---------- between two attempts ----------

  function Start(): State {
    Blank([Top, Top], false)
  }

  const Mine := Call(0, 0)
  const Expired := TimeoutIo(Mine, 5, Ev.Read)
  const Timer1: Entry := Tm.Entry(0, 10, 10, false, Expired)
  const Timer2: Entry := Tm.Entry(1, 20, 10, false, Expired)
  const Stale: RtTask := Task(CbWork(Expired), -1)
  const Reader: RtTask := Task(FiberWork(0), -1)
  const Ready5 := Ev.Report(5, true, false, false)

  function Reading(cancelled: bool, timer: Option<nat>): Wait {
    Wait(Mine, ReadWrite, 5, Ev.Read, Some(10), 0, cancelled, timer)
  }

  /** The reading fiber, suspended and running on worker w. */
  function Parked(cancelled: bool, timer: Option<nat>): Fiber {
    Fiber(Ready, None, InCall(Reading(cancelled, timer), Registered), 1)
  }

  function Active(w: nat, cancelled: bool, timer: Option<nat>, phase: Phase): Fiber {
    Fiber(Running, Some(w), InCall(Reading(cancelled, timer), phase), 1)
  }

  lemma ReadyRead()
    ensures |Watched().contexts| == Ev.InitialSize && Ev.Fresh(Watched(), Ready5)
    ensures Ev.Dispatch(Watched(), Ready5, false) == Ev.Done(Ev.EmptyTable(), [Ev.FiberWaiter(0)], true)
  {
    assert Watched().contexts[5 := Ev.FreshContext<nat, Callback>()] == Ev.EmptyTable<nat, Callback>().contexts;
    assert Watched().interest - {5} == map[];
  }

  lemma NothingToCancel()
    ensures Ev.CancelEvent(Ev.EmptyTable<nat, Callback>(), 5, Ev.Read, false) == Ev.Done(Ev.EmptyTable(), [], false)
  {
    assert Ev.EmptyTable<nat, Callback>().contexts[5] == Ev.FreshContext<nat, Callback>();
  }

  lemma Tails()
    ensures [Expired][1..] == [] && [Ready5][1..] == []
    ensures Queued([Ev.FiberWaiter(0)]) == [Reader] && Queued([]) == []
  {
    var woken: seq<Waiter> := [Ev.FiberWaiter(0)];
    assert woken[1..] == [];
  }

  function Stage1(): State {
    Start().(workers := [On(Popped(Reader)), Top], active := 1, fibers := [NewFiber])
  }

  function Stage2(): State {
    Start().(workers := [On(Run(0)), Top], active := 1, fibers := [Active(0, false, None, Arming)])
  }

  function Stage3(): State {
    Start().(
      workers := [On(Run(0)), Top], active := 1, timers := Timers([Timer1], true, 0, None), nextTimer := 1,
      fibers := [Active(0, false, Some(0), Registering)])
  }

  function Stage4(): State {
    Start().(
      workers := [On(Run(0)), Top], active := 1, events := Watched(), timers := Timers([Timer1], true, 0, None),
      nextTimer := 1, fibers := [Active(0, false, Some(0), Registered)])
  }

  function Stage5(): State {
    Start().(
      workers := [Top, On(IdleTop)], idle := 1, events := Watched(), timers := Timers([Timer1], true, 0, None),
      nextTimer := 1, fibers := [Parked(false, Some(0))])
  }

  function Stage6(): State {
    Start().(
      workers := [Top, On(Polling)], idle := 1, events := Watched(), timers := Timers([Timer1], false, 0, Some(10)),
      nextTimer := 1, fibers := [Parked(false, Some(0))], now := 10)
  }

  function Stage7(): State {
    Start().(
      workers := [Top, On(Carrying([Expired], [Ready5]))], idle := 1, events := Watched(),
      timers := Timers([], false, 10, Some(10)), nextTimer := 1, fibers := [Parked(false, Some(0))], now := 10,
      fired := {Mine})
  }

  function Stage8(): State {
    Start().(
      workers := [Top, On(Carrying([], [Ready5]))], queue := [Stale], idle := 1, events := Watched(),
      timers := Timers([], false, 10, Some(10)), nextTimer := 1, fibers := [Parked(false, Some(0))], now := 10,
      fired := {Mine})
  }

  function Stage9(): State {
    Start().(
      workers := [Top, On(Carrying([], []))], queue := [Stale, Reader], idle := 1,
      timers := Timers([], false, 10, Some(10)), nextTimer := 1, fibers := [Parked(false, Some(0))], now := 10,
      fired := {Mine})
  }

  function Stage10(): State {
    Start().(
      workers := [On(Popped(Stale)), Top], queue := [Reader], active := 1, timers := Timers([], false, 10, Some(10)),
      nextTimer := 1, fibers := [Parked(false, Some(0))], now := 10, fired := {Mine})
  }

  function Stage11(): State {
    Start().(
      workers := [On(Run(1)), On(Run(0))], active := 2, timers := Timers([], false, 10, Some(10)), nextTimer := 1,
      fibers := [Active(1, false, Some(0), Resumed), Inside(0, RunCb(Expired))], now := 10, fired := {Mine})
  }

  function Stage12(): State {
    Start().(
      workers := [On(Run(1)), On(Run(0))], active := 2, timers := Timers([], false, 10, Some(10)), nextTimer := 1,
      fibers := [Active(1, true, None, Trying), Inside(0, Cancelling(Mine, 5, Ev.Read))], now := 10, fired := {Mine})
  }

  function Stage13(): State {
    Start().(
      workers := [On(Run(1)), On(Run(0))], active := 2, timers := Timers([], false, 10, Some(10)), nextTimer := 1,
      fibers := [Active(1, true, None, Trying), Inside(0, Leaving)], now := 10, fired := {Mine})
  }

  function Stage14(): State {
    Start().(
      workers := [Top, On(Run(0))], active := 1, timers := Timers([], false, 10, Some(10)), nextTimer := 1,
      fibers := [Active(1, true, None, Arming), Helper], now := 10, fired := {Mine})
  }

  function Stage15(): State {
    Start().(
      workers := [Top, On(Run(0))], active := 1, timers := Timers([Timer2], true, 10, Some(10)), nextTimer := 2,
      fibers := [Active(1, true, Some(1), Registering), Helper], now := 10, fired := {Mine})
  }

  function Stage16(): State {
    Start().(
      workers := [Top, On(Run(0))], active := 1, events := Watched(), timers := Timers([Timer2], true, 10, Some(10)),
      nextTimer := 2, fibers := [Active(1, true, Some(1), Registered), Helper], now := 10, fired := {Mine})
  }

  function Stage17(): State {
    Start().(
      workers := [On(IdleTop), Top], idle := 1, events := Watched(), timers := Timers([Timer2], true, 10, Some(10)),
      nextTimer := 2, fibers := [Parked(true, Some(1)), Helper], now := 10, fired := {Mine})
  }

  function Stage18(): State {
    Start().(
      workers := [On(Polling), Top], idle := 1, events := Watched(), timers := Timers([Timer2], false, 10, Some(20)),
      nextTimer := 2, fibers := [Parked(true, Some(1)), Helper], now := 20, fired := {Mine})
  }

  function Stage19(): State {
    Start().(
      workers := [On(Carrying([Expired], [])), Top], idle := 1, events := Watched(),
      timers := Timers([], false, 20, Some(20)), nextTimer := 2, fibers := [Parked(true, Some(1)), Helper],
      now := 20, fired := {Mine})
  }

  function Stage20(): State {
    Start().(
      queue := [Stale], events := Watched(), timers := Timers([], false, 20, Some(20)), nextTimer := 2,
      fibers := [Parked(true, Some(1)), Helper], now := 20, fired := {Mine})
  }

  function Stage21(): State {
    Start().(
      workers := [On(Run(2)), Top], active := 1, events := Watched(), timers := Timers([], false, 20, Some(20)),
      nextTimer := 2, fibers := [Parked(true, Some(1)), Helper, Inside(0, Leaving)], now := 20, fired := {Mine})
  }

  function Stage22(): State {
    Start().(
      events := Watched(), timers := Timers([], false, 20, Some(20)), nextTimer := 2,
      fibers := [Parked(true, Some(1)), Helper, Helper], now := 20, fired := {Mine})
  }

  // The fiber reads fd 5 with a timeout of 10, would block, and is suspended.
  lemma Leg1()
    requires Reaches(Start(), Start())
    ensures Reaches(Start(), Stage1())
  {
    hide Reaches;
    var s1 := Start().(queue := [Reader], fibers := [NewFiber]);
    Go(Start(), Start(), External(true, 0, -1), s1);
    GoTake(Start(), s1, 0, Stage1());
  }

  lemma Leg2()
    requires Reaches(Start(), Stage1())
    ensures Reaches(Start(), Stage2())
  {
    hide Reaches;
    var s1 := Stage1().(workers := [On(Run(0)), Top], fibers := [Inside(0, Body)]);
    GoStep(Start(), Stage1(), 0, Resume, s1);
    var s2 := s1.(fibers := [Active(0, false, None, Trying)]);
    GoExec(Start(), s1, 0, Enter(ReadWrite, 5, Ev.Read, Some(10)), s2);
    GoExec(Start(), s2, 0, Try(Failure(EAGAIN)), Stage2());
  }

  lemma Leg3()
    requires Reaches(Start(), Stage2())
    ensures Reaches(Start(), Stage3())
  {
    hide Reaches;
    GoExec(Start(), Stage2(), 0, Arm, Stage3());
  }

  lemma Leg4()
    requires Reaches(Start(), Stage3())
    ensures Reaches(Start(), Stage4())
  {
    hide Reaches;
    RegisterRead();
    Tails();
    GoExec(Start(), Stage3(), 0, Register(false, 0), Stage4());
  }

  // Worker 1 waits; the timer runs out and the fd becomes readable.
  lemma Leg5()
    requires Reaches(Start(), Stage4())
    ensures Reaches(Start(), Stage5())
  {
    hide Reaches;
    var s1 := Stage4().(workers := [On(After), Top], fibers := [Parked(false, Some(0))]);
    GoExec(Start(), Stage4(), 0, Yield, s1);
    var s2 := s1.(workers := [Top, Top], active := 0);
    GoStep(Start(), s1, 0, Retire, s2);
    GoTake(Start(), s2, 1, Stage5());
  }

  lemma Leg6()
    requires Reaches(Start(), Stage5())
    ensures Reaches(Start(), Stage6())
  {
    hide Reaches;
    var s1 := Stage5().(workers := [Top, On(Blocking)], timers := Timers([Timer1], false, 0, Some(10)));
    GoIdle(Start(), Stage5(), 1, CheckAll, s1);
    var s2 := s1.(workers := [Top, On(Polling)]);
    GoIdle(Start(), s1, 1, Block, s2);
    Go(Start(), s2, Tick(10), Stage6());
  }

  lemma Leg7()
    requires Reaches(Start(), Stage6())
    ensures Reaches(Start(), Stage7())
  {
    hide Reaches;
    var s1 := Stage6().(workers := [Top, On(Expiring([Ready5]))]);
    GoIdle(Start(), Stage6(), 1, Poll([Ready5]), s1);
    SweepOne(Timers([Timer1], false, 0, Some(10)), Timer1, 10);
    GoStep(Start(), s1, 1, Expire, Stage7());
  }

  // The expired callback and then the fiber enter the queue.
  lemma Leg8()
    requires Reaches(Start(), Stage7())
    ensures Reaches(Start(), Stage8())
  {
    hide Reaches;
    Tails();
    GoStep(Start(), Stage7(), 1, Hand, Stage8());
  }

  lemma Leg9()
    requires Reaches(Start(), Stage8())
    ensures Reaches(Start(), Stage9())
  {
    hide Reaches;
    Tails();
    ReadyRead();
    GoStep(Start(), Stage8(), 1, Dispatch(false), Stage9());
  }

  // Worker 0 starts the callback, worker 1 resumes the fiber.
  lemma Leg10()
    requires Reaches(Start(), Stage9())
    ensures Reaches(Start(), Stage10())
  {
    hide Reaches;
    var s1 := Stage9().(workers := [Top, On(IdleOut)]);
    GoIdle(Start(), Stage9(), 1, YieldIdle, s1);
    var s2 := s1.(workers := [Top, Top], idle := 0);
    GoStep(Start(), s1, 1, LeaveIdle, s2);
    GoTake(Start(), s2, 0, Stage10());
  }

  lemma Leg11()
    requires Reaches(Start(), Stage10())
    ensures Reaches(Start(), Stage11())
  {
    hide Reaches;
    var s1 := Stage10().(workers := [On(Run(1)), Top], fibers := [Parked(false, Some(0)), Inside(0, RunCb(Expired))]);
    GoStep(Start(), Stage10(), 0, Resume, s1);
    var s2 := s1.(workers := [On(Run(1)), On(Popped(Reader))], queue := [], active := 2);
    GoTake(Start(), s1, 1, s2);
    GoStep(Start(), s2, 1, Resume, Stage11());
  }

  // The fiber cancels its timer and sees no mark; then the stale callback marks the call and finds no
  // registration.
  lemma Leg12()
    requires Reaches(Start(), Stage11())
    ensures Reaches(Start(), Stage12())
  {
    hide Reaches;
    var s1 := Stage11().(fibers := [Active(1, false, None, Checking), Inside(0, RunCb(Expired))]);
    GoExec(Start(), Stage11(), 1, Unarm(true), s1);
    var s2 := s1.(fibers := [Active(1, false, None, Trying), Inside(0, RunCb(Expired))]);
    GoExec(Start(), s1, 1, Check(true), s2);
    GoExec(Start(), s2, 0, CallBack, Stage12());
  }

  lemma Leg13()
    requires Reaches(Start(), Stage12())
    ensures Reaches(Start(), Stage13())
  {
    hide Reaches;
    NothingToCancel();
    Tails();
    GoExec(Start(), Stage12(), 0, FireCancel(false), Stage13());
  }

  // The fiber would block again, arms a second timer and is suspended.
  lemma Leg14()
    requires Reaches(Start(), Stage13())
    ensures Reaches(Start(), Stage14())
  {
    hide Reaches;
    var s1 := Stage13().(workers := [On(After), On(Run(0))], fibers := [Active(1, true, None, Trying), Helper]);
    GoExec(Start(), Stage13(), 0, Finish, s1);
    var s2 := s1.(workers := [Top, On(Run(0))], active := 1);
    GoStep(Start(), s1, 0, Retire, s2);
    GoExec(Start(), s2, 1, Try(Failure(EAGAIN)), Stage14());
  }

  lemma Leg15()
    requires Reaches(Start(), Stage14())
    ensures Reaches(Start(), Stage15())
  {
    hide Reaches;
    GoExec(Start(), Stage14(), 1, Arm, Stage15());
  }

  lemma Leg16()
    requires Reaches(Start(), Stage15())
    ensures Reaches(Start(), Stage16())
  {
    hide Reaches;
    RegisterRead();
    Tails();
    GoExec(Start(), Stage15(), 1, Register(false, 0), Stage16());
  }

  // Worker 0 waits for the second timer, which runs out.
  lemma Leg17()
    requires Reaches(Start(), Stage16())
    ensures Reaches(Start(), Stage17())
  {
    hide Reaches;
    var s1 := Stage16().(workers := [Top, On(After)], fibers := [Parked(true, Some(1)), Helper]);
    GoExec(Start(), Stage16(), 1, Yield, s1);
    var s2 := s1.(workers := [Top, Top], active := 0);
    GoStep(Start(), s1, 1, Retire, s2);
    GoTake(Start(), s2, 0, Stage17());
  }

  lemma Leg18()
    requires Reaches(Start(), Stage17())
    ensures Reaches(Start(), Stage18())
  {
    hide Reaches;
    var s1 := Stage17().(workers := [On(Blocking), Top], timers := Timers([Timer2], false, 10, Some(20)));
    GoIdle(Start(), Stage17(), 0, CheckAll, s1);
    var s2 := s1.(workers := [On(Polling), Top]);
    GoIdle(Start(), s1, 0, Block, s2);
    Go(Start(), s2, Tick(10), Stage18());
  }

  lemma Leg19()
    requires Reaches(Start(), Stage18())
    ensures Reaches(Start(), Stage19())
  {
    hide Reaches;
    var s1 := Stage18().(workers := [On(Expiring([])), Top]);
    GoIdle(Start(), Stage18(), 0, Poll([]), s1);
    SweepOne(Timers([Timer2], false, 10, Some(20)), Timer2, 20);
    GoStep(Start(), s1, 0, Expire, Stage19());
  }

  // The second callback enters the queue.
  lemma Leg20()
    requires Reaches(Start(), Stage19())
    ensures Reaches(Start(), Stage20())
  {
    hide Reaches;
    Tails();
    var s1 := Stage19().(workers := [On(Carrying([], [])), Top], queue := [Stale]);
    GoStep(Start(), Stage19(), 0, Hand, s1);
    var s2 := s1.(workers := [On(IdleOut), Top]);
    GoIdle(Start(), s1, 0, YieldIdle, s2);
    GoStep(Start(), s2, 0, LeaveIdle, Stage20());
  }

  // The second callback finds the call marked and returns.
  lemma Leg21()
    requires Reaches(Start(), Stage20())
    ensures Reaches(Start(), Stage21())
  {
    hide Reaches;
    var s1 := Stage20().(workers := [On(Popped(Stale)), Top], queue := [], active := 1);
    GoTake(Start(), Stage20(), 0, s1);
    var s2 := s1.(workers := [On(Run(2)), Top], fibers := [Parked(true, Some(1)), Helper, Inside(0, RunCb(Expired))]);
    GoStep(Start(), s1, 0, Resume, s2);
    GoExec(Start(), s2, 0, CallBack, Stage21());
  }

  lemma Leg22()
    requires Reaches(Start(), Stage21())
    ensures Reaches(Start(), Stage22())
  {
    hide Reaches;
    var s1 := Stage21().(workers := [On(After), Top], fibers := [Parked(true, Some(1)), Helper, Helper]);
    GoExec(Start(), Stage21(), 0, Finish, s1);
    GoStep(Start(), s1, 0, Retire, Stage22());
  }

  /** There is a run of two workers, within all assumptions, after which a do_io entered at time 0 with a timeout of
      10 is still suspended at time 20 although the timers of both of its attempts have fired: the callback of the
      first came between the two attempts, and the mark it left made the second one return at once. No timer,
      queue entry or vector refers to the call any more; only its fd can wake it. */
  lemma StaleCallbackDisarmsTheCall() returns (actions: seq<Action>)
    ensures Runs(Initial(2, 0, false), actions)
    ensures var s := Final(Initial(2, 0, false), actions);
            && |s.fibers| > 0 && s.fibers[0].state.Ready? && Lost(s, 0)
            && s.fibers[0].code == InCall(Reading(true, Some(1)), Registered)
            && s.now > Reading(true, Some(1)).entered + Reading(true, Some(1)).timeout.value
            && s.timers.order == [] && s.queue == []
            && forall w :: 0 <= w < |s.workers| ==> s.workers[w].pc.Scan?
  {
    hide Stage1, Stage2, Stage3, Stage4, Stage5, Stage6, Stage7, Stage8, Stage9, Stage10, Stage11, Stage12, BodyNext;
    hide CallNext, ExecNext, StepNext, Next, IdleMove, TakeNext, ResumeFiber, ResumeCallback, ExpireNext, HandNext;
    hide DispatchNext, CallBackNext;
    hide Stage13, Stage14, Stage15, Stage16, Stage17, Stage18, Stage19, Stage20, Stage21;
    Stay(Start());
    Leg1();
    Leg2();
    Leg3();
    Leg4();
    Leg5();
    Leg6();
    Leg7();
    Leg8();
    Leg9();
    Leg10();
    Leg11();
    Leg12();
    Leg13();
    Leg14();
    Leg15();
    Leg16();
    Leg17();
    Leg18();
    Leg19();
    Leg20();
    Leg21();
    Leg22();
    actions := TakeRun(2, false, Stage22());
  }

  // ---------- in the first attempt ----------

  /** Fiber 0 has armed Timer1, and worker 1 is at the top of its loop: the clock reaches the deadline, and worker 1
      brings the callback as far as the fiber made for it, whatever worker 0 is at. */
  lemma CallbackArrives(s: State, s': State)
    requires Reaches(Start(), s) && |s.workers| == 2 && s.workers[1] == Top && |s.fibers| == 1
    requires s.timers == Timers([Timer1], true, 0, None) && s.queue == [] && s.idle == 0 && s.now == 0 && s.fired == {}
    requires !s.fault && !s.splitStop && !s.stopping
    requires s' == s.(
      workers := [s.workers[0], On(Run(1))], active := s.active + 1, timers := Timers([], false, 10, Some(10)),
      fibers := [s.fibers[0], Inside(1, RunCb(Expired))], now := 10, fired := {Mine})
    ensures Reaches(Start(), s')
  {
    hide Reaches;
    var x := s.workers[0];
    var s1 := s.(workers := [x, On(IdleTop)], idle := 1);
    GoTake(Start(), s, 1, s1);
    var s2 := s1.(workers := [x, On(Blocking)], timers := Timers([Timer1], false, 0, Some(10)));
    GoIdle(Start(), s1, 1, CheckAll, s2);
    var s3 := s2.(workers := [x, On(Polling)]);
    GoIdle(Start(), s2, 1, Block, s3);
    var s4 := s3.(now := 10);
    Go(Start(), s3, Tick(10), s4);
    var s5 := s4.(
      workers := [x, On(Carrying([Expired], []))], timers := Timers([], false, 10, Some(10)), fired := {Mine});
    TimerFires(s4, s5);
    var s6 := s5.(workers := [x, Top], idle := 0, queue := [Stale]);
    CallbackQueued(s5, s6);
    CallbackStarts(s6, s');
  }

  lemma TimerFires(s: State, s': State)
    requires Reaches(Start(), s) && |s.workers| == 2 && s.workers[1] == On(Polling) && !s.fault
    requires s.timers == Timers([Timer1], false, 0, Some(10)) && s.now == 10 && s.fired == {}
    requires s' == s.(
      workers := [s.workers[0], On(Carrying([Expired], []))], timers := Timers([], false, 10, Some(10)),
      fired := {Mine})
    ensures Reaches(Start(), s')
  {
    hide Reaches, Tm.Sweep, Tm.SweepEnds, Tm.SweepsApart, CallbacksOf, CallsOf;
    var s1 := s.(workers := [s.workers[0], On(Expiring([]))]);
    GoIdle(Start(), s, 1, Poll([]), s1);
    SweepOne(s.timers, Timer1, 10);
    GoStep(Start(), s1, 1, Expire, s');
  }

  lemma CallbackQueued(s: State, s': State)
    requires Reaches(Start(), s) && |s.workers| == 2 && s.workers[1] == On(Carrying([Expired], [])) && !s.fault
    requires s.queue == [] && s.idle == 1
    requires s' == s.(workers := [s.workers[0], Top], idle := 0, queue := [Stale])
    ensures Reaches(Start(), s')
  {
    hide Reaches, TakeNext, ResumeFiber, ResumeCallback, ExpireNext, DispatchNext, Tm.GetNext;
    Tails();
    var s1 := s.(workers := [s.workers[0], On(Carrying([], []))], queue := [Stale]);
    GoStep(Start(), s, 1, Hand, s1);
    var s2 := s1.(workers := [s.workers[0], On(IdleOut)]);
    GoIdle(Start(), s1, 1, YieldIdle, s2);
    GoStep(Start(), s2, 1, LeaveIdle, s');
  }

  lemma CallbackStarts(s: State, s': State)
    requires Reaches(Start(), s) && |s.workers| == 2 && s.workers[1] == Top && |s.fibers| == 1 && s.queue == [Stale]
    requires !s.fault
    requires s' == s.(
      workers := [s.workers[0], On(Run(1))], active := s.active + 1, queue := [],
      fibers := [s.fibers[0], Inside(1, RunCb(Expired))])
    ensures Reaches(Start(), s')
  {
    hide Reaches;
    var s1 := s.(workers := [s.workers[0], On(Popped(Stale))], active := s.active + 1, queue := []);
    GoTake(Start(), s, 1, s1);
    GoStep(Start(), s1, 1, Resume, s');
  }

  /** The callback runs while fiber 0 is between addConditionTimer and addEvent. */
  function Early(): State {
    Start().(
      workers := [On(Run(0)), On(Run(1))], active := 2, timers := Timers([], false, 10, Some(10)), nextTimer := 1,
      fibers := [Active(0, false, Some(0), Registering), Inside(1, RunCb(Expired))], now := 10, fired := {Mine})
  }

  lemma EarlyIsReached()
    ensures Reaches(Start(), Early())
  {
    Stay(Start());
    Leg1();
    Leg2();
    Leg3();
    hide Reaches;
    CallbackArrives(Stage3(), Early());
  }

  function EarlyCancelled(): State {
    Early().(
      workers := [On(Run(0)), Top], active := 1, fibers := [Active(0, true, Some(0), Registering), Helper])
  }

  lemma EarlyCallbackRuns()
    requires Reaches(Start(), Early())
    ensures Reaches(Start(), EarlyCancelled())
  {
    hide Reaches;
    var s1 := Early().(fibers := [Active(0, true, Some(0), Registering), Inside(1, Cancelling(Mine, 5, Ev.Read))]);
    GoExec(Start(), Early(), 1, CallBack, s1);
    NothingToCancel();
    Tails();
    var s2 := s1.(fibers := [Active(0, true, Some(0), Registering), Inside(1, Leaving)]);
    GoExec(Start(), s1, 1, FireCancel(false), s2);
    var s3 := s2.(workers := [On(Run(0)), On(After)], fibers := [Active(0, true, Some(0), Registering), Helper]);
    GoExec(Start(), s2, 1, Finish, s3);
    GoStep(Start(), s3, 1, Retire, EarlyCancelled());
  }

  function EarlyRegistered(): State {
    EarlyCancelled().(events := Watched(), fibers := [Active(0, true, Some(0), Registered), Helper])
  }

  lemma EarlyRegisters()
    requires Reaches(Start(), EarlyCancelled())
    ensures Reaches(Start(), EarlyRegistered())
  {
    hide Reaches, Watched, BodyNext, CallBackNext;
    RegisterRead();
    Tails();
    var s := EarlyCancelled();
    assert SameParts(RegisterNext(s, 0, Reading(true, Some(0)), false, 0), EarlyRegistered());
    hide RegisterNext, SameParts;
    GoExec(Start(), s, 0, Register(false, 0), EarlyRegistered());
  }

  function EarlyParked(): State {
    EarlyRegistered().(workers := [Top, Top], active := 0, fibers := [Parked(true, Some(0)), Helper], now := 11)
  }

  lemma EarlyParks()
    requires Reaches(Start(), EarlyRegistered())
    ensures Reaches(Start(), EarlyParked())
  {
    hide Reaches, Watched;
    var s1 := EarlyRegistered().(workers := [On(After), Top], fibers := [Parked(true, Some(0)), Helper]);
    GoExec(Start(), EarlyRegistered(), 0, Yield, s1);
    var s2 := s1.(workers := [Top, Top], active := 0);
    GoStep(Start(), s1, 0, Retire, s2);
    Go(Start(), s2, Tick(1), EarlyParked());
  }

  /** There is a run of two workers, within all assumptions, after which a do_io in its first attempt is suspended past
      its timeout: the callback of its timer ran before the call had registered, and found nothing to cancel. */
  lemma EarlyCallbackDisarmsTheCall() returns (actions: seq<Action>)
    ensures Runs(Initial(2, 0, false), actions)
    ensures var s := Final(Initial(2, 0, false), actions);
            && |s.fibers| > 0 && s.fibers[0].state.Ready? && Lost(s, 0)
            && s.fibers[0].code == InCall(Reading(true, Some(0)), Registered)
            && s.now > Reading(true, Some(0)).entered + Reading(true, Some(0)).timeout.value
            && s.timers.order == [] && s.queue == []
            && forall w :: 0 <= w < |s.workers| ==> s.workers[w].pc.Scan?
  {
    hide Reaches, Runs, Final, Initial;
    EarlyIsReached();
    EarlyCallbackRuns();
    EarlyRegisters();
    EarlyParks();
    actions := TakeRun(2, false, EarlyParked());
  }

  // ---------- a refused cancellation ----------

  function Refused(): State {
    Start().(
      workers := [Top, On(Run(1))], active := 1, events := Watched(), timers := Timers([], false, 10, Some(10)),
      nextTimer := 1, fibers := [Parked(true, Some(0)), Inside(1, Leaving)], now := 10, fired := {Mine})
  }

  lemma ParkedIsReached()
    ensures Reaches(Start(), Stage5().(workers := [Top, Top], idle := 0))
  {
    hide Reaches, Watched, Stage1, Stage2, Stage3;
    Stay(Start());
    Leg1();
    Leg2();
    Leg3();
    Leg4();
    var s1 := Stage4().(workers := [On(After), Top], fibers := [Parked(false, Some(0))]);
    GoExec(Start(), Stage4(), 0, Yield, s1);
    GoStep(Start(), s1, 0, Retire, Stage5().(workers := [Top, Top], idle := 0));
  }

  lemma WatchedRefuses()
    ensures Ev.CancelEvent(Watched(), 5, Ev.Read, true) == Ev.Done(Watched(), [], true)
  {
  }

  lemma RefusedIsReached()
    ensures Reaches(Start(), Refused())
  {
    ParkedIsReached();
    hide Reaches, Watched;
    var s1 := Refused().(fibers := [Parked(false, Some(0)), Inside(1, RunCb(Expired))]);
    CallbackArrives(Stage5().(workers := [Top, Top], idle := 0), s1);
    var s2 := Refused().(fibers := [Parked(true, Some(0)), Inside(1, Cancelling(Mine, 5, Ev.Read))]);
    GoExec(Start(), s1, 1, CallBack, s2);
    WatchedRefuses();
    Tails();
    hide Ev.CancelEvent;
    GoExec(Start(), s2, 1, FireCancel(true), Refused());
  }

  /** A run after which the timeout of a suspended call is lost because epoll_ctl failed in cancelEvent. */
  lemma RefusedCancelDisarmsTheCall() returns (actions: seq<Action>)
    ensures Runs(Initial(2, 0, false), actions)
    ensures var s := Final(Initial(2, 0, false), actions);
            && |s.fibers| > 0 && s.fibers[0].state.Ready? && Lost(s, 0)
            && s.fibers[0].code == InCall(Reading(true, Some(0)), Registered)
            && s.timers.order == [] && s.queue == []
  {
    hide Reaches;
    RefusedIsReached();
    actions := TakeRun(2, false, Refused());
  }
}
