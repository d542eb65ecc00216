// Shutdown with the three reads of stopping() as written: two workers can leave a sleeping fiber behind.

module LateTask {
  import opened Base
  import opened TaskQueue
  import opened Runtime
  import opened Shutdown
  import opened Witness
  import Tm = Timers

  function Start(): State {
    Blank([Top, Top], true)
  }

  const Nap1: Entry := Tm.Entry(0, 10, 10, false, WakeFiber(0))
  const Nap2: Entry := Tm.Entry(1, 20, 10, false, WakeFiber(0))
  const Wake: RtTask := Task(CbWork(WakeFiber(0)), -1)
  const Sleep0: RtTask := Task(FiberWork(0), -1)

  function Stage1(): State {
    Start().(workers := [On(Popped(Sleep0)), Top], active := 1, fibers := [NewFiber])
  }

  function Stage2(): State {
    Start().(
      workers := [On(After), Top], active := 1, timers := Timers([Nap1], true, 0, None), nextTimer := 1,
      fibers := [Sleeper])
  }

  function Stage3(): State {
    Start().(stopping := true, timers := Timers([Nap1], false, 0, Some(10)), nextTimer := 1, fibers := [Sleeper])
  }

  function Stage4(): State {
    Start().(
      workers := [On(IdleTop), On(Blocking)], idle := 2, stopping := true,
      timers := Timers([Nap1], false, 0, Some(10)), nextTimer := 1, fibers := [Sleeper])
  }

  function Stage5(): State {
    Start().(
      workers := [On(IdleTop), On(Expiring([]))], idle := 2, stopping := true,
      timers := Timers([Nap1], false, 0, Some(10)), nextTimer := 1, fibers := [Sleeper], now := 10)
  }

  function Stage6(): State {
    Start().(
      workers := [On(SawNoTimer), On(Carrying([WakeFiber(0)], []))], idle := 2, stopping := true,
      timers := Timers([], false, 10, None), nextTimer := 1, fibers := [Sleeper], now := 10)
  }

  function Stage7(): State {
    Start().(
      workers := [Done, On(Carrying([WakeFiber(0)], []))], idle := 1, stopping := true,
      timers := Timers([], false, 10, None), nextTimer := 1, fibers := [Sleeper], now := 10)
  }

  function Stage8(): State {
    Start().(
      workers := [Done, Top], queue := [Wake], stopping := true, timers := Timers([], false, 10, None),
      nextTimer := 1, fibers := [Sleeper], now := 10)
  }

  function Stage9(): State {
    Start().(
      workers := [Late(Run(1)), Top], queue := [Sleep0], active := 1, stopping := true,
      timers := Timers([], false, 10, None), nextTimer := 1, fibers := [Sleeper, Inside(0, Leaving)], now := 10)
  }

  function Stage10(): State {
    Start().(
      workers := [Late(Popped(Sleep0)), Top], active := 1, stopping := true, timers := Timers([], false, 10, None),
      nextTimer := 1, fibers := [Sleeper, Helper], now := 10)
  }

  function Stage11(): State {
    Start().(
      workers := [Late(Run(0)), On(SawNoTimer)], active := 1, idle := 1, stopping := true,
      timers := Timers([], false, 10, None), nextTimer := 1, fibers := [Inside(0, Body), Helper], now := 10)
  }

  function Stage12(): State {
    Start().(
      workers := [Late(After), On(SawNoEvent)], active := 1, idle := 1, stopping := true,
      timers := Timers([Nap2], true, 10, None), nextTimer := 2, fibers := [Sleeper, Helper], now := 10)
  }

  function Stage13(): State {
    Start().(
      workers := [Done, Done], stopping := true, timers := Timers([Nap2], true, 10, None), nextTimer := 2,
      fibers := [Sleeper, Helper], now := 10)
  }

  function Stage14(): State {
    Start().(
      workers := [Late(Exited), Late(Exited)], stopping := true, timers := Timers([Nap2], true, 10, None),
      nextTimer := 2, fibers := [Sleeper, Helper], now := 10)
  }

  // The fiber starts and goes to sleep; stop() is called.
  lemma Leg1()
    requires Reaches(Start(), Start())
    ensures Reaches(Start(), Stage1())
  {
    hide Reaches;
    var s1 := Start().(queue := [Sleep0], fibers := [NewFiber]);
    Go(Start(), Start(), External(true, 0, -1), s1);
    GoTake(Start(), s1, 0, Stage1());
  }

  lemma Leg2()
    requires Reaches(Start(), Stage1())
    ensures Reaches(Start(), Stage2())
  {
    hide Reaches;
    var s1 := Stage1().(workers := [On(Run(0)), Top], fibers := [Inside(0, Body)]);
    GoStep(Start(), Stage1(), 0, Resume, s1);
    var s2 := s1.(timers := Timers([Nap1], true, 0, None), nextTimer := 1, fibers := [Inside(0, Asleep)]);
    GoExec(Start(), s1, 0, Sleep(10), s2);
    GoExec(Start(), s2, 0, Yield, Stage2());
  }

  lemma Leg3()
    requires Reaches(Start(), Stage2())
    ensures Reaches(Start(), Stage3())
  {
    hide Reaches;
    var s1 := Stage2().(workers := [Top, Top], active := 0);
    GoStep(Start(), Stage2(), 0, Retire, s1);
    var s2 := s1.(timers := Timers([Nap1], false, 0, Some(10)));
    Go(Start(), s1, StopLook, s2);
    Go(Start(), s2, Stop, Stage3());
  }

  // Both workers find nothing to do; worker 1 waits for the timer.
  lemma Leg4()
    requires Reaches(Start(), Stage3())
    ensures Reaches(Start(), Stage4())
  {
    hide Reaches;
    var s1 := Stage3().(workers := [On(IdleTop), Top], idle := 1);
    GoTake(Start(), Stage3(), 0, s1);
    var s2 := s1.(workers := [On(IdleTop), On(IdleTop)], idle := 2);
    GoTake(Start(), s1, 1, s2);
    GoIdle(Start(), s2, 1, CheckTimers, Stage4());
  }

  // The timer expires into the vector of worker 1.
  lemma Leg5()
    requires Reaches(Start(), Stage4())
    ensures Reaches(Start(), Stage5())
  {
    hide Reaches;
    var s1 := Stage4().(workers := [On(IdleTop), On(Polling)]);
    GoIdle(Start(), Stage4(), 1, Block, s1);
    var s2 := s1.(now := 10);
    Go(Start(), s1, Tick(10), s2);
    GoIdle(Start(), s2, 1, Poll([]), Stage5());
  }

  // Worker 0 sees nothing left and its idle fiber terminates.
  lemma Leg6()
    requires Reaches(Start(), Stage5())
    ensures Reaches(Start(), Stage6())
  {
    hide Reaches, ResumeFiber;
    SweepOne(Timers([Nap1], false, 0, Some(10)), Nap1, 10);
    var s1 := Stage5().(
      workers := [On(IdleTop), On(Carrying([WakeFiber(0)], []))], timers := Timers([], false, 10, Some(10)));
    GoStep(Start(), Stage5(), 1, Expire, s1);
    GoIdle(Start(), s1, 0, CheckTimers, Stage6());
  }

  lemma Leg7()
    requires Reaches(Start(), Stage6())
    ensures Reaches(Start(), Stage7())
  {
    hide Reaches;
    var s1 := Stage6().(workers := [On(SawNoEvent), On(Carrying([WakeFiber(0)], []))]);
    GoIdle(Start(), Stage6(), 0, CheckPending, s1);
    var s2 := s1.(workers := [Ended, On(Carrying([WakeFiber(0)], []))]);
    GoIdle(Start(), s1, 0, CheckQueue, s2);
    GoStep(Start(), s2, 0, LeaveIdle, Stage7());
  }

  // Worker 1 hands the callback over. Worker 1 leaves idle().
  lemma Leg8()
    requires Reaches(Start(), Stage7())
    ensures Reaches(Start(), Stage8())
  {
    hide Reaches, Tm.Add, Tm.Cancel, Tm.Refresh, Tm.Reset, Tm.Sweep, Tm.GetNext;
    assert [WakeFiber(0)][1..] == [];
    var s1 := Stage7().(workers := [Done, On(Carrying([], []))], queue := [Wake]);
    GoStep(Start(), Stage7(), 1, Hand, s1);
    var s2 := s1.(workers := [Done, On(IdleOut)]);
    GoIdle(Start(), s1, 1, YieldIdle, s2);
    GoStep(Start(), s2, 1, LeaveIdle, Stage8());
  }

  // Worker 0 picks the callback up although its idle fiber has terminated.
  lemma Leg9()
    requires Reaches(Start(), Stage8())
    ensures Reaches(Start(), Stage9())
  {
    hide Reaches;
    var s1 := Stage8().(workers := [Late(Popped(Wake)), Top], queue := [], active := 1);
    GoTake(Start(), Stage8(), 0, s1);
    var s2 := s1.(workers := [Late(Run(1)), Top], fibers := [Sleeper, Inside(0, RunCb(WakeFiber(0)))]);
    GoStep(Start(), s1, 0, Resume, s2);
    GoExec(Start(), s2, 0, CallBack, Stage9());
  }

  // Worker 0 resumes the sleeper while worker 1 reads the timers and the events.
  lemma Leg10()
    requires Reaches(Start(), Stage9())
    ensures Reaches(Start(), Stage10())
  {
    hide Reaches;
    var s1 := Stage9().(workers := [Late(After), Top], fibers := [Sleeper, Helper]);
    GoExec(Start(), Stage9(), 0, Finish, s1);
    var s2 := s1.(workers := [Done, Top], active := 0);
    GoStep(Start(), s1, 0, Retire, s2);
    GoTake(Start(), s2, 0, Stage10());
  }

  lemma Leg11()
    requires Reaches(Start(), Stage10())
    ensures Reaches(Start(), Stage11())
  {
    hide Reaches;
    var s1 := Stage10().(workers := [Late(Run(0)), Top], fibers := [Inside(0, Body), Helper]);
    GoStep(Start(), Stage10(), 0, Resume, s1);
    var s2 := s1.(workers := [Late(Run(0)), On(IdleTop)], idle := 1);
    GoTake(Start(), s1, 1, s2);
    GoIdle(Start(), s2, 1, CheckTimers, Stage11());
  }

  // The sleeper sleeps again before worker 1 reads the queue and the counter.
  lemma Leg12()
    requires Reaches(Start(), Stage11())
    ensures Reaches(Start(), Stage12())
  {
    hide Reaches;
    var s1 := Stage11().(workers := [Late(Run(0)), On(SawNoEvent)]);
    GoIdle(Start(), Stage11(), 1, CheckPending, s1);
    var s2 := s1.(timers := Timers([Nap2], true, 10, None), nextTimer := 2, fibers := [Inside(0, Asleep), Helper]);
    GoExec(Start(), s1, 0, Sleep(10), s2);
    GoExec(Start(), s2, 0, Yield, Stage12());
  }

  lemma Leg13()
    requires Reaches(Start(), Stage12())
    ensures Reaches(Start(), Stage13())
  {
    hide Reaches;
    var s1 := Stage12().(workers := [Done, On(SawNoEvent)], active := 0);
    GoStep(Start(), Stage12(), 0, Retire, s1);
    var s2 := s1.(workers := [Done, Ended]);
    GoIdle(Start(), s1, 1, CheckQueue, s2);
    GoStep(Start(), s2, 1, LeaveIdle, Stage13());
  }

  lemma Leg14()
    requires Reaches(Start(), Stage13())
    ensures Reaches(Start(), Stage14())
  {
    hide Reaches;
    var s1 := Stage13().(workers := [Late(Exited), Done]);
    GoTake(Start(), Stage13(), 0, s1);
    GoTake(Start(), s1, 1, Stage14());
  }

  /** With two workers and the three reads of stopping() as written there is a run, without ties, stale reports or
      outside interference, after which both workers have left run() and a fiber still waits for a timer: worker 1
      saw no timer, then worker 0, whose idle fiber had already terminated, ran a task that armed one and finished
      before worker 1 looked at the queue and the active counter. */
  lemma SplitStoppingStrandsASleeper() returns (actions: seq<Action>)
    ensures Runs(Initial(2, 0, true), actions)
    ensures var s := Final(Initial(2, 0, true), actions);
            && AllTerminated(s.workers) && (forall w :: 0 <= w < |s.workers| ==> s.workers[w].pc.Exited?)
            && s.timers.order == [Tm.Entry(1, 20, 10, false, WakeFiber(0))]
            && s.fibers == [Fiber(Ready, None, Asleep, 0), Fiber(Term, None, Over, 0)]
            && !Quiescent(s)
  {
    hide Stage1, Stage2, Stage3, Stage4, Stage5, Stage6, Stage7, Stage8, Stage9, Stage10, Stage11, Stage12, BodyNext;
    hide CallNext, ExecNext, StepNext, Next, IdleMove, TakeNext, ResumeFiber, ResumeCallback, ExpireNext, HandNext;
    hide DispatchNext, CallBackNext;
    hide Stage13;
    Stay(Start());
    Leg1();
    Leg2();
    Leg3();
    Leg4();
    Leg5();
    Leg6();
    Leg7();
    Leg8();
    Leg9();
    Leg10();
    Leg11();
    Leg12();
    Leg13();
    Leg14();
    actions := TakeRun(2, true, Stage14());
  }
}
