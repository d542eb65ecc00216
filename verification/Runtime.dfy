// The coroutine runtime as a step system: n workers running Scheduler::run with IOManager::idle, the
// shared queue, the fd contexts, the timer set, and task fibers whose bodies wait through the hooks.
// One step is one critical section or one access to shared state; any interleaving of steps is a run.

module Runtime {
  import opened Base
  import opened TaskQueue
  import Ev = Events
  import Tm = Timers

  /** The calls of do_io and connect_with_timeout made by one fiber are numbered; a call stands for its timer_info. */
  datatype Call = Call(fiber: nat, seqno: nat)

  datatype Callback =
    | UserCb(id: nat)
    | WakeFiber(fiber: nat)                            // what sleep() puts into its timer
    | TimeoutIo(call: Call, fd: nat, event: Ev.Event)  // what do_io() puts into its condition timer

  datatype Work = FiberWork(fiber: nat) | CbWork(cb: Callback)

  type RtTask = Task<Work>
  type Waiter = Ev.Waiter<nat, Callback>
  type EventTable = Ev.Table<nat, Callback>
  type Entry = Tm.Entry<nat, Callback>
  type TimerSet = Tm.TimerSet<nat, Callback>

  // ---------- fibers ----------

  datatype FiberState = Ready | Running | Term

  datatype Kind = ReadWrite | Connect

  datatype Errno = EINTR | EAGAIN | EINPROGRESS | OtherErrno(code: int)

  datatype SysResult = Value(n: int) | Failure(errno: Errno)

  /** The locals of one call: `cancelled` is tinfo->cancelled, `timer` the handle of the armed timer. */
  datatype Wait = Wait(
    call: Call, kind: Kind, fd: nat, event: Ev.Event, timeout: Option<nat>,
    entered: int, cancelled: bool, timer: Option<nat>)

  datatype Phase =
    | Trying        // about to run the system call
    | Arming        // it would block; about to add the condition timer
    | Registering   // about to call addEvent
    | Registered    // addEvent succeeded; yielding or suspended
    | Resumed       // about to cancel the timer
    | Checking      // about to look at tinfo->cancelled
    | AddFailed(errno: Errno)   // addEvent failed and left errno so; about to cancel the timer

  datatype Outcome =
    | SysReturn(result: SysResult)   // what the system call returned
    | TimedOut                       // -1 with ETIMEDOUT
    | NotAdded(errno: Errno)         // -1 because addEvent failed, with errno as it is then
    | Probed(ok: bool)               // connect: the SO_ERROR of the socket

  /** What a fiber does next. */
  datatype Code =
    | Start
    | Body                                  // user code
    | RunCb(cb: Callback)                   // a fiber made for a queued callback
    | Cancelling(call: Call, fd: nat, event: Ev.Event)  // the timeout callback after it marked its call
    | Leaving
    | Asleep                                // sleep() has armed its timer
    | InCall(wait: Wait, phase: Phase)
    | Exiting(wait: Wait, outcome: Outcome)
    | Over

  /** `holder` is the worker that holds m_mutex of the fiber. */
  datatype Fiber = Fiber(state: FiberState, holder: Option<nat>, code: Code, calls: nat)

  // ---------- workers ----------

  datatype Pc =
    | Scan
    | Popped(task: RtTask)
    | Run(fiber: nat)
    | After                                // resume() returned, the counter is still up
    | IdleTop                              // idle(): about to call stopping()
    | SawNoTimer                           // inside stopping(): no timer was seen
    | SawNoEvent                           // inside stopping(): no pending event was seen either
    | Blocking                             // about to compute the epoll timeout
    | Polling                              // in epoll_wait
    | Expiring(reports: seq<Ev.Report>)    // about to call listExpiredCb
    | Carrying(cbs: seq<Callback>, reports: seq<Ev.Report>)
    | IdleOut                              // the idle fiber gave control back, its counter is still up
    | Exited

  /** `idleTerm`: the idle fiber of this worker has state TERM. */
  datatype Worker = Worker(pc: Pc, idleTerm: bool)

  /** `fired` is a history variable: the calls whose timer a sweep has handed out. `splitStop` says
      whether IOManager::stopping reads its three sources in three steps, as written, or in one.
      `fault` is raised by a failing assert. */
  datatype State = State(
    workers: seq<Worker>, queue: seq<RtTask>, active: int, idle: int, stopping: bool,
    events: EventTable, timers: TimerSet, nextTimer: nat, fibers: seq<Fiber>,
    now: int, fired: set<Call>, splitStop: bool, fault: bool)

  // ---------- steps ----------

  datatype WorkerOp =
    | Take | Resume | Retire
    | CheckAll | CheckTimers | CheckPending | CheckQueue
    | Block | Interrupt | Poll(reports: seq<Ev.Report>) | Expire | Hand | Dispatch(refused: bool)
    | YieldIdle | LeaveIdle

  datatype BodyOp =
    | Schedule(id: nat, thread: int) | Spawn(thread: int)
    | SetTimer(ms: nat, recurring: bool, id: nat) | DropTimer(key: nat) | RefreshTimer(key: nat)
    | ResetTimer(key: nat, newMs: nat, fromNow: bool)
    | Watch(fd: nat, event: Ev.Event, id: nat, refused: bool) | Unwatch(fd: nat, event: Ev.Event, refused: bool)
    | CancelIo(fd: nat, event: Ev.Event, refused: bool) | Close(fd: nat, refused: bool)
    | Sleep(ms: nat) | Enter(kind: Kind, fd: nat, event: Ev.Event, timeout: Option<nat>)
    | Finish
    | CallBack | FireCancel(refused: bool)
    | Try(result: SysResult) | Arm | Register(refused: bool, code: int) | Unarm(soOk: bool) | Check(soOk: bool)
    | Yield | Continue

  datatype Action =
    | Tick(ms: nat)
    | External(spawn: bool, id: nat, thread: int)   // scheduleLock from outside the workers
    | StopLook                                     // stop() asks stopping(), which looks at the timers first
    | Stop                                         // and then sets m_stopping
    | Step(w: nat, op: WorkerOp)
    | Exec(w: nat, body: BodyOp)

  function Goto(s: State, w: nat, pc: Pc): State
    requires w < |s.workers|
  {
    s.(workers := s.workers[w := s.workers[w].(pc := pc)])
  }

  function Queued(woken: seq<Waiter>): seq<RtTask> {
    if woken == [] then []
    else
      var work := match woken[0] case FiberWaiter(f) => FiberWork(f) case CbWaiter(c) => CbWork(c);
      [Task(work, -1)] + Queued(woken[1..])
  }

  /** The outcome of an operation on the event table; a failing assert raises the fault. */
  function WithEvents(s: State, r: Ev.Result<nat, Callback>): State {
    match r
    case AssertFailed => s.(fault := true)
    case Done(table, woken, _) => s.(events := table, queue := s.queue + Queued(woken))
  }

  function CallbacksOf(es: seq<Entry>): seq<Callback> {
    if es == [] then [] else [es[0].cb] + CallbacksOf(es[1..])
  }

  function CallsOf(es: seq<Entry>): set<Call> {
    set i | 0 <= i < |es| && es[i].cb.TimeoutIo? :: es[i].cb.call
  }

  predicate NothingLeft(s: State) {
    s.stopping && s.queue == [] && s.active == 0
  }

  /** The code at which a resumed fiber goes on. */
  function OnResume(c: Code): Code {
    match c
    case InCall(wait, _) => InCall(wait, Resumed)
    case _ => Body
  }

  /** The scan of run(). */
  function TakeNext(s: State, w: nat): State
    requires w < |s.workers|
  {
    match FirstEligible(s.queue, w)
    case Some(i) => Goto(s, w, Popped(s.queue[i])).(queue := Without(s.queue, i), active := s.active + 1)
    case None => if s.workers[w].idleTerm then Goto(s, w, Exited) else Goto(s, w, IdleTop).(idle := s.idle + 1)
  }

  /** run() locks the mutex of the fiber it popped and resumes it, unless it is TERM; None while the mutex is taken. */
  function ResumeFiber(s: State, w: nat, f: nat): Option<State>
    requires w < |s.workers|
  {
    if f >= |s.fibers| || s.fibers[f].holder.Some? then None
    else
      var fiber := s.fibers[f];
      if fiber.state == Term then Some(Goto(s, w, After))
      else if fiber.state != Ready then Some(s.(fault := true))
      else
        var running := fiber.(state := Running, holder := Some(w), code := OnResume(fiber.code));
        Some(Goto(s, w, Run(f)).(fibers := s.fibers[f := running]))
  }

  /** run() makes a fiber for the callback it popped and resumes that. */
  function ResumeCallback(s: State, w: nat, cb: Callback): State
    requires w < |s.workers|
  {
    Goto(s, w, Run(|s.fibers|)).(fibers := s.fibers + [Fiber(Running, Some(w), RunCb(cb), 0)])
  }

  /** The steps of idle() that only move the worker, possibly after a look at the timers. */
  datatype Move = Move(worker: Worker, timers: TimerSet)

  /** stopping() answered yes: the loop breaks and the idle fiber ends with TERM. */
  const Ended := Worker(IdleOut, true)

  function IdleMove(s: State, me: Worker, op: WorkerOp): Option<Move> {
    var timers := Tm.GetNext(s.timers, s.now).0;
    var noTimer := Tm.GetNext(s.timers, s.now).1.None?;
    match op
    case CheckAll =>
      if !me.pc.IdleTop? || s.splitStop then None
      else Some(Move(if noTimer && s.events.pending == 0 && NothingLeft(s) then Ended else me.(pc := Blocking), timers))
    case CheckTimers =>
      if !me.pc.IdleTop? || !s.splitStop then None
      else Some(Move(me.(pc := if noTimer then SawNoTimer else Blocking), timers))
    case CheckPending =>
      if !me.pc.SawNoTimer? then None
      else Some(Move(me.(pc := if s.events.pending == 0 then SawNoEvent else Blocking), s.timers))
    case CheckQueue =>
      if !me.pc.SawNoEvent? then None
      else Some(Move(if NothingLeft(s) then Ended else me.(pc := Blocking), s.timers))
    case Block =>
      if !me.pc.Blocking? then None else Some(Move(me.(pc := Polling), timers))
    case Interrupt =>
      if !me.pc.Polling? then None else Some(Move(me.(pc := Blocking), s.timers))
    case Poll(reports) =>
      if !me.pc.Polling? || !Ev.Reportable(s.events.interest, reports) then None
      else Some(Move(me.(pc := Expiring(reports)), s.timers))
    case YieldIdle =>
      if !me.pc.Carrying? || me.pc.cbs != [] || me.pc.reports != [] then None
          else Some(Move(me.(pc := IdleOut), s.timers))
    case _ => None
  }

  function ExpireNext(s: State, w: nat, reports: seq<Ev.Report>): State
    requires w < |s.workers|
  {
    var (timers, handed) := Tm.Sweep(s.timers, s.now);
    Goto(s, w, Carrying(CallbacksOf(handed), reports)).(timers := timers, fired := s.fired + CallsOf(handed))
  }

  function HandNext(s: State, w: nat, cbs: seq<Callback>, reports: seq<Ev.Report>): State
    requires w < |s.workers| && cbs != []
  {
    Goto(s, w, Carrying(cbs[1..], reports)).(queue := s.queue + [Task(CbWork(cbs[0]), -1)])
  }

  function DispatchNext(s: State, w: nat, reports: seq<Ev.Report>, refused: bool): State
    requires w < |s.workers| && reports != [] && reports[0].fd < |s.events.contexts|
  {
    WithEvents(Goto(s, w, Carrying([], reports[1..])), Ev.Dispatch(s.events, reports[0], refused))
  }

  function StepNext(s: State, w: nat, op: WorkerOp): Option<State>
    requires w < |s.workers|
  {
    var pc := s.workers[w].pc;
    match op
    case Take => if pc.Scan? then Some(TakeNext(s, w)) else None
    case Resume =>
      if !pc.Popped? then None
      else if pc.task.work.FiberWork? then ResumeFiber(s, w, pc.task.work.fiber)
      else Some(ResumeCallback(s, w, pc.task.work.cb))
    case Retire => if pc.After? then Some(Goto(s, w, Scan).(active := s.active - 1)) else None
    case Expire => if pc.Expiring? && Tm.SweepEnds(s.timers, s.now) then Some(ExpireNext(s, w, pc.reports)) else None
    case Hand => if pc.Carrying? && pc.cbs != [] then Some(HandNext(s, w, pc.cbs, pc.reports)) else None
    case Dispatch(refused) =>
      if pc.Carrying? && pc.cbs == [] && pc.reports != [] && pc.reports[0].fd < |s.events.contexts|
      then Some(DispatchNext(s, w, pc.reports, refused)) else None
    case LeaveIdle => if pc.IdleOut? then Some(Goto(s, w, Scan).(idle := s.idle - 1)) else None
    case _ =>
      match IdleMove(s, s.workers[w], op)
      case None => None
      case Some(m) => Some(s.(workers := s.workers[w := m.worker], timers := m.timers))
  }

  function SetCode(s: State, f: nat, c: Code): State
    requires f < |s.fibers|
  {
    s.(fibers := s.fibers[f := s.fibers[f].(code := c)])
  }

  /** A fiber gives control back: run() unlocks its mutex. */
  function Suspend(s: State, w: nat, f: nat, state: FiberState, c: Code): State
    requires w < |s.workers| && f < |s.fibers|
  {
    Goto(s, w, After).(fibers := s.fibers[f := s.fibers[f].(state := state, holder := None, code := c)])
  }

  function AddTimer(s: State, ms: nat, recurring: bool, cb: Callback): State {
    s.(timers := Tm.Add(s.timers, Tm.Entry(s.nextTimer, s.now + ms, ms, recurring, cb)), nextTimer := s.nextTimer + 1)
  }

  /** User code only holds handles of the timers it made. */
  predicate UserHandle(s: State, k: nat) {
    Tm.Live(s.timers, k).None? || Tm.Live(s.timers, k).value.cb.UserCb?
  }

  /** One step of user code. */
  function BodyNext(s: State, w: nat, f: nat, op: BodyOp): Option<State>
    requires w < |s.workers| && f < |s.fibers|
  {
    match op
    case Schedule(id, thread) => Some(s.(queue := s.queue + [Task(CbWork(UserCb(id)), thread)]))
    case Spawn(thread) =>
      Some(s.(fibers := s.fibers + [Fiber(Ready, None, Start, 0)],
          queue := s.queue + [Task(FiberWork(|s.fibers|), thread)]))
    case SetTimer(ms, recurring, id) => Some(AddTimer(s, ms, recurring, UserCb(id)))
    case DropTimer(k) =>
      if UserHandle(s, k) then Some(s.(timers := Tm.Cancel(s.timers, k).0)) else None
    case RefreshTimer(k) =>
      if UserHandle(s, k) then Some(s.(timers := Tm.Refresh(s.timers, k, s.now).0)) else None
    case ResetTimer(k, ms, fromNow) =>
      if UserHandle(s, k) then Some(s.(timers := Tm.Reset(s.timers, k, ms, fromNow, s.now).0)) else None
    case Watch(fd, e, id, refused) =>
      if |s.events.contexts| < Ev.InitialSize then None
      else Some(WithEvents(s, Ev.AddEvent(s.events, fd, e, Ev.CbWaiter(UserCb(id)), refused)))
    case Unwatch(fd, e, refused) => Some(WithEvents(s, Ev.DelEvent(s.events, fd, e, refused)))
    case CancelIo(fd, e, refused) => Some(WithEvents(s, Ev.CancelEvent(s.events, fd, e, refused)))
    case Close(fd, refused) => Some(WithEvents(s, Ev.CancelAll(s.events, fd, refused)))
    case Sleep(ms) => Some(SetCode(AddTimer(s, ms, false, WakeFiber(f)), f, Asleep))
    case Enter(kind, fd, e, timeout) =>
      var wait := Wait(Call(f, s.fibers[f].calls), kind, fd, e, timeout, s.now, false, None);
      Some(s.(fibers := s.fibers[f := s.fibers[f].(code := InCall(wait, Trying), calls := s.fibers[f].calls + 1)]))
    case Finish => Some(Suspend(s, w, f, Term, Over))
    case _ => None
  }

  /** tinfo of the call is still there and not marked. */
  predicate Unmarked(s: State, call: Call) {
    && call.fiber < |s.fibers|
    && s.fibers[call.fiber].code.InCall?
    && s.fibers[call.fiber].code.wait.call == call
    && !s.fibers[call.fiber].code.wait.cancelled
  }

  /** The start of a callback in the fiber made for it. */
  function CallBackNext(s: State, f: nat, cb: Callback): State
    requires f < |s.fibers|
  {
    match cb
    case UserCb(_) => SetCode(s, f, Body)
    case WakeFiber(g) => SetCode(s, f, Leaving).(queue := s.queue + [Task(FiberWork(g), -1)])
    case TimeoutIo(call, fd, e) =>
      if Unmarked(s, call)
      then
        var code := s.fibers[call.fiber].code;
        SetCode(SetCode(s, call.fiber, InCall(code.wait.(cancelled := true), code.phase)), f, Cancelling(call, fd, e))
      else SetCode(s, f, Leaving)
  }

  /** The errno on which the call waits for its fd. */
  function WouldBlock(kind: Kind): Errno {
    match kind
    case ReadWrite => EAGAIN
    case Connect => EINPROGRESS
  }

  /** What follows the system call: do_io repeats it on EINTR and waits on EAGAIN, connect waits on EINPROGRESS. */
  function TryCode(wait: Wait, r: SysResult): Code {
    if r.Failure? && r.errno == EINTR && wait.kind == ReadWrite then InCall(wait, Trying)
    else if r.Failure? && r.errno == WouldBlock(wait.kind) then InCall(wait, Arming)
    else Exiting(wait, SysReturn(r))
  }

  /** addConditionTimer, when the call has a timeout. */
  function ArmNext(s: State, f: nat, wait: Wait): State
    requires f < |s.fibers|
  {
    if wait.timeout.None? then SetCode(s, f, InCall(wait, Registering))
    else SetCode(AddTimer(s, wait.timeout.value, false, TimeoutIo(wait.call, wait.fd, wait.event)), f,
                 InCall(wait.(timer := Some(s.nextTimer)), Registering))
  }

  /** errno after a failing addEvent: a registered event is refused before any system call, so errno is still that
      of the call that would block; otherwise it is the one of epoll_ctl. */
  function AddErrno(s: State, wait: Wait, code: int): Errno {
    if Ev.Registered(s.events, wait.fd, wait.event) then WouldBlock(wait.kind) else OtherErrno(code)
  }

  /** The call after addEvent, which asserts that the current fiber is RUNNING. */
  function AfterAddEvent(s: State, f: nat, wait: Wait, r: Ev.Result<nat, Callback>, errno: Errno): State
    requires f < |s.fibers|
  {
    var ok := r.Done? && r.ret;
    var s' := SetCode(WithEvents(s, r), f, InCall(wait, if ok then Registered else AddFailed(errno)));
    if ok && s.fibers[f].state != Running then s'.(fault := true) else s'
  }

  function RegisterNext(s: State, f: nat, wait: Wait, refused: bool, code: int): State
    requires f < |s.fibers| && |s.events.contexts| >= Ev.InitialSize
  {
    AfterAddEvent(s, f, wait, Ev.AddEvent(s.events, wait.fd, wait.event, Ev.FiberWaiter(f), refused),
        AddErrno(s, wait, code))
  }

  /** timer->cancel(), when the call armed one; the handle goes out of use. */
  function UnarmNext(s: State, f: nat, wait: Wait, c: Code): State
    requires f < |s.fibers|
  {
    SetCode(if wait.timer.None? then s else s.(timers := Tm.Cancel(s.timers, wait.timer.value).0), f, c)
  }

  function CheckCode(wait: Wait, soOk: bool): Code {
    if wait.cancelled then Exiting(wait, TimedOut)
    else if wait.kind == ReadWrite then InCall(wait, Trying)
    else Exiting(wait, Probed(soOk))
  }

  /** One step of do_io or connect_with_timeout. */
  function CallNext(s: State, w: nat, f: nat, wait: Wait, phase: Phase, op: BodyOp): Option<State>
    requires w < |s.workers| && f < |s.fibers|
  {
    match phase
    case Trying => if op.Try? then Some(SetCode(s, f, TryCode(wait, op.result))) else None
    case Arming => if op.Arm? then Some(ArmNext(s, f, wait)) else None
    case Registering =>
      if !op.Register? || |s.events.contexts| < Ev.InitialSize then None
      else Some(RegisterNext(s, f, wait, op.refused, op.code))
    case Registered => if op.Yield? then Some(Suspend(s, w, f, Ready, InCall(wait, Registered))) else None
    case Resumed =>
      if op.Unarm? then Some(UnarmNext(s, f, wait, InCall(wait.(timer := None), Checking))) else None
    case AddFailed(errno) =>
      if !op.Unarm? then None
      else
        var outcome := if wait.kind == ReadWrite then NotAdded(errno) else Probed(op.soOk);
        Some(UnarmNext(s, f, wait, Exiting(wait.(timer := None), outcome)))
    case Checking => if op.Check? then Some(SetCode(s, f, CheckCode(wait, op.soOk))) else None
  }

  function ExecNext(s: State, w: nat, op: BodyOp): Option<State>
    requires w < |s.workers|
  {
    if !s.workers[w].pc.Run? || s.workers[w].pc.fiber >= |s.fibers| then None
    else
      var f := s.workers[w].pc.fiber;
      match s.fibers[f].code
      case Body => BodyNext(s, w, f, op)
      case RunCb(cb) => if op.CallBack? then Some(CallBackNext(s, f, cb)) else None
      case Cancelling(_, fd, e) =>
        if op.FireCancel?
        then Some(SetCode(WithEvents(s, Ev.CancelEvent(s.events, fd, e, op.refused)), f, Leaving))
        else None
      case Leaving => if op.Finish? then Some(Suspend(s, w, f, Term, Over)) else None
      case Asleep => if op.Yield? then Some(Suspend(s, w, f, Ready, Asleep)) else None
      case InCall(wait, phase) => CallNext(s, w, f, wait, phase, op)
      case Exiting(_, _) => if op.Continue? then Some(SetCode(s, f, Body)) else None
      case _ => None
  }

  /** None when the action is not possible in this state. */
  function Next(s: State, a: Action): Option<State> {
    if s.fault then None
    else match a
      case Tick(ms) => Some(s.(now := s.now + ms))
      case External(spawn, id, thread) =>
        if s.stopping then None   // nobody schedules from outside once stop() was called
        else if spawn then
          Some(s.(fibers := s.fibers + [Fiber(Ready, None, Start, 0)],
              queue := s.queue + [Task(FiberWork(|s.fibers|), thread)]))
        else Some(s.(queue := s.queue + [Task(CbWork(UserCb(id)), thread)]))
      case StopLook => Some(s.(timers := Tm.GetNext(s.timers, s.now).0))
      case Stop => Some(s.(stopping := true))
      case Step(w, op) => if w < |s.workers| then StepNext(s, w, op) else None
      case Exec(w, op) => if w < |s.workers| then ExecNext(s, w, op) else None
  }

  /** n workers at the top of run(), nothing queued, armed or registered. */
  function Initial(n: nat, now: int, splitStop: bool): State {
    State(seq(n, _ => Worker(Scan, false)), [], 0, 0, false, Ev.EmptyTable(), Tm.EmptySet(now), 0, [], now, {},
        splitStop, false)
  }

  // ---------- assumptions about a run ----------

  /** The deadline at which the step puts a timer into the set is not taken by another timer. */
  predicate FreeDeadlines(s: State, a: Action) {
    match a
    case Step(_, Expire) => Tm.SweepsApart(s.timers, s.now)
    case Exec(w, op) =>
      w < |s.workers| && s.workers[w].pc.Run? && s.workers[w].pc.fiber < |s.fibers|
      ==> FreeInsert(s, s.fibers[s.workers[w].pc.fiber].code, op)
    case _ => true
  }

  predicate FreeInsert(s: State, c: Code, op: BodyOp) {
    var order := s.timers.order;
    match c
    case Body => (
      match op
      case SetTimer(ms, _, _) => !Tm.Tie(order, s.now + ms)
      case Sleep(ms) => !Tm.Tie(order, s.now + ms)
      case RefreshTimer(k) =>
        var live := Tm.Live(s.timers, k);
        live.Some? ==> Tm.Free(order, k, s.now + live.value.ms)
      case ResetTimer(k, ms, fromNow) =>
        var live := Tm.Live(s.timers, k);
        live.Some? ==>
          || (ms == live.value.ms && !fromNow)
          || Tm.Free(order, k, Tm.Moved(live.value, ms, fromNow, s.now).next)
      case _ => true)
    case InCall(wait, Arming) => wait.timeout.Some? ==> !Tm.Tie(order, s.now + wait.timeout.value)
    case _ => true
  }

  /** User code gives a recurring timer a period. */
  predicate PositivePeriods(s: State, a: Action) {
    match a
    case Exec(_, SetTimer(ms, recurring, _)) => recurring ==> ms > 0
    case Exec(_, ResetTimer(k, ms, _)) => Tm.Live(s.timers, k).Some? && Tm.Live(s.timers, k).value.recurring ==> ms > 0
    case _ => true
  }

  predicate DistinctDeadlines(s: State, a: Action) {
    FreeDeadlines(s, a) && PositivePeriods(s, a)
  }

  /** delEvent is not called on a registration a fiber waits on. */
  predicate KeepsWaiters(s: State, a: Action) {
    match a
    case Exec(_, Unwatch(fd, e, _)) => fd < |s.events.contexts| ==> s.events.contexts[fd].Slot(e).fiber.None?
    case _ => true
  }

  /** The report being dispatched names no READ/WRITE bit that was unregistered since epoll_wait, unless
      nothing it names is registered. */
  predicate FreshReports(s: State, a: Action) {
    match a
    case Step(w, Dispatch(_)) =>
      w < |s.workers| && s.workers[w].pc.Carrying? && s.workers[w].pc.reports != []
          && s.workers[w].pc.reports[0].fd < |s.events.contexts|
      ==> Ev.Fresh(s.events, s.workers[w].pc.reports[0])
    case _ => true
  }

  predicate Admissible(s: State, a: Action) {
    DistinctDeadlines(s, a) && KeepsWaiters(s, a) && FreshReports(s, a)
  }

  /** A run: every action is possible and admissible when its turn comes. */
  ghost predicate Runs(s: State, actions: seq<Action>)
    decreases |actions|
  {
    actions == []
    || (Next(s, actions[0]).Some? && Admissible(s, actions[0]) && Runs(Next(s, actions[0]).value, actions[1..]))
  }

  ghost function Final(s: State, actions: seq<Action>): State
    decreases |actions|
  {
    if actions == [] || Next(s, actions[0]).None? then s else Final(Next(s, actions[0]).value, actions[1..])
  }
}
