// The inductive invariant of the runtime.

module Invariants {
  import opened Base
  import opened Runtime
  import Ev = Events
  import Tm = Timers

  // ---------- who runs what ----------

  /** A worker inside a fiber holds its mutex, a held mutex names the worker inside, and exactly the held fibers are
      RUNNING. */
  ghost predicate Holders(workers: seq<Worker>, fibers: seq<Fiber>) {
    && (forall w :: 0 <= w < |workers| && workers[w].pc.Run? ==>
          workers[w].pc.fiber < |fibers| && fibers[workers[w].pc.fiber].holder == Some(w))
    && (forall f :: 0 <= f < |fibers| && fibers[f].holder.Some? ==>
          fibers[f].holder.value < |workers| && workers[fibers[f].holder.value].pc == Run(f))
    && (forall f :: 0 <= f < |fibers| ==> (fibers[f].state.Running? <==> fibers[f].holder.Some?))
  }

  predicate HasWait(c: Code) {
    c.InCall? || c.Exiting?
  }

  /** The timer handle is set from the moment the timer is added until it is cancelled. */
  predicate PhaseHasTimer(p: Phase) {
    p.Registering? || p.Registered? || p.Resumed? || p.AddFailed?
  }

  predicate WaitOk(f: nat, fiber: Fiber) {
    HasWait(fiber.code) ==>
      var wait := fiber.code.wait;
      && fiber.calls > 0 && wait.call == Call(f, fiber.calls - 1)
      && (wait.timer.Some? ==> wait.timeout.Some? && fiber.code.InCall? && PhaseHasTimer(fiber.code.phase))
  }

  /** errno at the return of a failing call, unless it is ETIMEDOUT or the SO_ERROR of the socket. */
  function ErrnoOf(outcome: Outcome): Option<Errno> {
    match outcome
    case SysReturn(Failure(errno)) => Some(errno)
    case NotAdded(errno) => Some(errno)
    case _ => None
  }

  /** What do_io can return: never the result of an interrupted or a would-block system call. */
  predicate OutcomeOk(wait: Wait, outcome: Outcome) {
    match outcome
    case SysReturn(r) => wait.kind.ReadWrite? && r.Failure? ==> r.errno != EINTR && r.errno != EAGAIN
    case TimedOut => wait.cancelled
    case NotAdded(errno) => wait.kind.ReadWrite? && AddErrnoOk(wait.kind, errno)
    case Probed(_) => wait.kind.Connect?
  }

  /** What addEvent can leave in errno. */
  predicate AddErrnoOk(kind: Kind, errno: Errno) {
    errno == WouldBlock(kind) || errno.OtherErrno?
  }

  /** A suspended fiber sits at one of the three points where fibers give control back. */
  predicate FiberOk(f: nat, fiber: Fiber) {
    && (fiber.state.Ready? ==> Suspended(fiber.code))
    && (fiber.state.Term? <==> fiber.code.Over?)
    && (fiber.state.Running? ==> !fiber.code.Start?)
    && WaitOk(f, fiber)
    && (fiber.code.Exiting? ==> OutcomeOk(fiber.code.wait, fiber.code.outcome))
    && (fiber.code.InCall? && fiber.code.phase.AddFailed? ==> AddErrnoOk(fiber.code.wait.kind, fiber.code.phase.errno))
  }

  /** The code of a fiber that is owed exactly one wake-up: it waits to be resumed, or it has armed its
      wait and is about to give control back. */
  predicate Suspended(c: Code) {
    c.Start? || c.Asleep? || (c.InCall? && c.phase.Registered?)
  }

  // ---------- counters ----------

  predicate HoldsTask(pc: Pc) {
    pc.Popped? || pc.Run? || pc.After?
  }

  predicate InIdle(pc: Pc) {
    !HoldsTask(pc) && !pc.Scan? && !pc.Exited?
  }

  function TaskCount(): Worker -> nat {
    (x: Worker) => if HoldsTask(x.pc) then 1 else 0
  }

  function IdleCount(): Worker -> nat {
    (x: Worker) => if InIdle(x.pc) then 1 else 0
  }

  ghost predicate Counts(workers: seq<Worker>, active: int, idle: int) {
    active == Sum(workers, TaskCount()) && idle == Sum(workers, IdleCount())
  }

  /** A terminated idle fiber is not entered again. */
  ghost predicate TermOk(workers: seq<Worker>) {
    forall w :: 0 <= w < |workers| && workers[w].idleTerm
        ==> HoldsTask(workers[w].pc) || workers[w].pc in {Scan, IdleOut, Exited}
  }

  // ---------- wake-up tokens ----------

  /** How often a task refers to fiber f: it resumes f, or it is the callback of a sleep that schedules f. */
  function Waking(f: nat): Work -> nat {
    (x: Work) => if x == FiberWork(f) || x == CbWork(WakeFiber(f)) then 1 else 0
  }

  /** A weight under which user callbacks do not count. */
  ghost predicate IgnoresUsers(v: Work -> nat) {
    forall id: nat :: v(CbWork(UserCb(id))) == 0
  }

  function InQueue(v: Work -> nat): RtTask -> nat {
    (t: RtTask) => v(t.work)
  }

  function InTimer(v: Work -> nat): Entry -> nat {
    (e: Entry) => v(CbWork(e.cb))
  }

  function InVector(v: Work -> nat): Callback -> nat {
    (cb: Callback) => v(CbWork(cb))
  }

  function InSlot(v: Work -> nat): Waiter -> nat {
    (x: Waiter) => match x case FiberWaiter(f) => v(FiberWork(f)) case CbWaiter(cb) => v(CbWork(cb))
  }

  function InHand(pc: Pc, v: Work -> nat): nat {
    match pc
    case Popped(t) => v(t.work)
    case Carrying(cbs, _) => Sum(cbs, InVector(v))
    case _ => 0
  }

  function AtWorker(v: Work -> nat): Worker -> nat {
    (x: Worker) => InHand(x.pc, v)
  }

  function InCode(c: Code, v: Work -> nat): nat {
    if c.RunCb? then v(CbWork(c.cb)) else 0
  }

  function InCallback(v: Work -> nat): Fiber -> nat {
    (x: Fiber) => InCode(x.code, v)
  }

  /** All there is to be done, weighed by v: queue entries, armed timers, waiters in fd contexts, what workers carry in
      hand or in a vector of expired callbacks, and callbacks about to run. */
  ghost function References(s: State, v: Work -> nat): nat {
    Sum(s.queue, InQueue(v)) + Sum(s.timers.order, InTimer(v)) + Sum(s.events.contexts, Ev.Weight(InSlot(v)))
    + Sum(s.workers, AtWorker(v)) + Sum(s.fibers, InCallback(v))
  }

  /** The references through which fiber f can be woken. */
  ghost function Tokens(s: State, f: nat): nat {
    References(s, Waking(f))
  }

  function Owed(fibers: seq<Fiber>, f: nat): nat {
    if f < |fibers| && Suspended(fibers[f].code) then 1 else 0
  }

  ghost predicate TokensOk(s: State) {
    forall f: nat :: Tokens(s, f) == Owed(s.fibers, f)
  }

  // ---------- timers and calls ----------

  ghost predicate TimersOk(timers: TimerSet, nextTimer: nat, now: int) {
    && Tm.FrontInv(timers, now) && timers.limbo == map[]
    && (forall i :: 0 <= i < |timers.order| ==>
          && timers.order[i].key < nextTimer
          && (timers.order[i].recurring ==> timers.order[i].cb.UserCb? && timers.order[i].ms > 0))
  }

  /** A condition timer belongs to a call that is still under way, holds its handle and started at least
      the timeout before the deadline. */
  predicate OwnedTimer(e: Entry, fibers: seq<Fiber>) {
    e.cb.TimeoutIo? ==>
      && e.cb.call.fiber < |fibers|
      && var code := fibers[e.cb.call.fiber].code;
      && code.InCall? && code.wait.call == e.cb.call && code.wait.timer == Some(e.key)
      && code.wait.timeout.Some? && e.next >= code.wait.entered + code.wait.timeout.value
  }

  ghost predicate OwnedTimers(order: seq<Entry>, fibers: seq<Fiber>) {
    forall i :: 0 <= i < |order| ==> OwnedTimer(order[i], fibers)
  }

  /** The handle a call keeps is that of its own timer, as long as that timer is armed. */
  predicate OwnHandle(f: Fiber, e: Entry) {
    HasWait(f.code) && f.code.wait.timer == Some(e.key) ==> e.cb.TimeoutIo? && e.cb.call == f.code.wait.call
  }

  predicate HandleMade(f: Fiber, nextTimer: nat) {
    HasWait(f.code) && f.code.wait.timer.Some? ==> f.code.wait.timer.value < nextTimer
  }

  ghost predicate HandlesOk(order: seq<Entry>, fibers: seq<Fiber>, nextTimer: nat) {
    && (forall f, i :: 0 <= f < |fibers| && 0 <= i < |order| ==> OwnHandle(fibers[f], order[i]))
    && (forall f :: 0 <= f < |fibers| ==> HandleMade(fibers[f], nextTimer))
  }

  /** The timer of this call fired no earlier than its timeout after the call was entered. */
  predicate FiredInTime(c: Call, fibers: seq<Fiber>, now: int) {
    && c.fiber < |fibers| && c.seqno < fibers[c.fiber].calls
    && var code := fibers[c.fiber].code;
    && (HasWait(code) && code.wait.call == c ==>
          code.wait.timeout.Some? && now >= code.wait.entered + code.wait.timeout.value)
  }

  predicate EnteredBefore(f: Fiber, now: int) {
    HasWait(f.code) ==> f.code.wait.entered <= now
  }

  ghost predicate FiredOk(fired: set<Call>, fibers: seq<Fiber>, now: int) {
    && (forall c :: c in fired ==> FiredInTime(c, fibers, now))
    && (forall f :: 0 <= f < |fibers| && HasWait(fibers[f].code) && fibers[f].code.wait.cancelled
         ==> fibers[f].code.wait.call in fired)
    && (forall f :: 0 <= f < |fibers| ==> EnteredBefore(fibers[f], now))
  }

  /** A timeout callback in flight was handed out by a sweep. */
  predicate CbFired(cb: Callback, fired: set<Call>) {
    cb.TimeoutIo? ==> cb.call in fired
  }

  predicate TaskFired(t: RtTask, fired: set<Call>) {
    t.work.CbWork? ==> CbFired(t.work.cb, fired)
  }

  predicate WorkerFired(x: Worker, fired: set<Call>) {
    match x.pc
    case Popped(t) => TaskFired(t, fired)
    case Carrying(cbs, _) => forall i :: 0 <= i < |cbs| ==> CbFired(cbs[i], fired)
    case _ => true
  }

  ghost predicate InFlightFired(queue: seq<RtTask>, workers: seq<Worker>, fibers: seq<Fiber>, fired: set<Call>) {
    && (forall i :: 0 <= i < |queue| ==> TaskFired(queue[i], fired))
    && (forall w :: 0 <= w < |workers| ==> WorkerFired(workers[w], fired))
    && (forall f :: 0 <= f < |fibers| && fibers[f].code.RunCb? ==> CbFired(fibers[f].code.cb, fired))
  }

  function NotUser(): Waiter -> nat {
    (x: Waiter) => match x case FiberWaiter(_) => 0 case CbWaiter(cb) => if cb.UserCb? then 0 else 1
  }

  /** The callbacks registered with addEvent are user callbacks. */
  ghost predicate SlotsOk(contexts: seq<Ev.FdContext<nat, Callback>>) {
    Sum(contexts, Ev.Weight(NotUser())) == 0
  }

  ghost predicate FibersOk(fibers: seq<Fiber>) {
    forall f :: 0 <= f < |fibers| ==> FiberOk(f, fibers[f])
  }

  ghost predicate Inv(s: State) {
    && !s.fault
    && Holders(s.workers, s.fibers)
    && FibersOk(s.fibers)
    && Counts(s.workers, s.active, s.idle)
    && TermOk(s.workers)
    && Ev.Agree(s.events)
    && SlotsOk(s.events.contexts)
    && TimersOk(s.timers, s.nextTimer, s.now)
    && OwnedTimers(s.timers.order, s.fibers) && HandlesOk(s.timers.order, s.fibers, s.nextTimer)
    && FiredOk(s.fired, s.fibers, s.now)
    && InFlightFired(s.queue, s.workers, s.fibers, s.fired)
    && TokensOk(s)
  }
}
