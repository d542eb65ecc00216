// What becomes of the timeout of a call: when it can still end the call, and which steps lose it.

module TimeoutFate {
  import opened Base
  import opened TaskQueue
  import opened Runtime
  import opened Invariants
  import opened WorkerSteps
  import opened WorkerTimeouts
  import opened BodyTokens
  import opened BodySteps
  import opened Reachable
  import opened Guarantees
  import opened CallTimeouts
  import Ev = Events
  import Tm = Timers

  lemma ReachedTimeouts(n: nat, start: int, splitStop: bool, actions: seq<Action>, s: State)
    requires ReachedBy(n, start, splitStop, actions, s)
    ensures Inv(s) && TimeoutInv(s)
  {
    hide Inv, TimeoutInv, Initial, Runs, Final;
    InitialInv(n, start, splitStop);
    InitialTimeouts(n, start, splitStop);
    RunKeepsTimeouts(Initial(n, start, splitStop), actions);
  }

  // ---------- what a timeout callback does ----------

  /** The cancelEvent of fiber f, which has marked a call. */
  function FinishCancel(s: State, f: nat, refused: bool): State
    requires f < |s.fibers| && s.fibers[f].code.Cancelling?
  {
    var c := s.fibers[f].code;
    SetCode(WithEvents(s, Ev.CancelEvent(s.events, c.fd, c.event, refused)), f, Leaving)
  }

  /** The callback of a condition timer in fiber f, run to its end: it marks the call and cancels the registration, or
      returns at once. */
  function FireTimeout(s: State, f: nat, cb: Callback, refused: bool): State
    requires f < |s.fibers| && cb.TimeoutIo?
  {
    var s1 := CallBackNext(s, f, cb);
    if s1.fibers[f].code.Cancelling? then FinishCancel(s1, f, refused) else s1
  }

  /** Fiber g is in the slot of the event its call named. */
  predicate Waiting(s: State, g: nat) {
    && g < |s.fibers| && s.fibers[g].code.InCall? && s.fibers[g].code.phase.Registered?
    && Ev.WaiterAt(s.events, s.fibers[g].code.wait.fd, s.fibers[g].code.wait.event) == Some(g)
  }

  /** All that happens to the queue is that fiber g enters it. */
  predicate Wakes(s: State, s': State, g: nat) {
    s'.queue == s.queue + [Task(FiberWork(g), -1)]
  }

  lemma CancelWakes(s: State, fd: nat, e: Ev.Event, g: nat, refused: bool)
    requires Ev.Agree(s.events) && Ev.WaiterAt(s.events, fd, e) == Some(g)
    ensures var r := Ev.CancelEvent(s.events, fd, e, refused);
            && r.Done? && Queued(r.woken) == (if refused then [] else [Task(FiberWork(g), -1)])
            && (refused ==> r.table == s.events)
  {
    assert s.events.contexts[fd].Consistent();
    Ev.CancelEventKeeps(s.events, fd, e, refused, InSlot(Waking(g)));
    var woken := Ev.CancelEvent(s.events, fd, e, refused).woken;
    if !refused {
      assert woken == [Ev.FiberWaiter(g)];
      assert woken[1..] == [];
    }
  }

  /** While a call waits, the callback of its timer wakes it iff the call is not marked yet and the kernel does not
      refuse. A refused one leaves its mark all the same; on a marked call it does nothing. */
  lemma TimeoutWakesIff(s: State, f: nat, g: nat, refused: bool)
    requires Ev.Agree(s.events) && f < |s.fibers| && Waiting(s, g) && s.fibers[g].code.wait.call.fiber == g
    requires s.fibers[f].code == RunCb(TimeoutOf(s.fibers[g].code.wait))
    ensures var wait := s.fibers[g].code.wait;
            var s' := FireTimeout(s, f, TimeoutOf(wait), refused);
            && (Wakes(s, s', g) <==> !wait.cancelled && !refused)
            && (wait.cancelled || refused ==> s'.queue == s.queue && s'.events == s.events)
            && s'.fibers[g].code == InCall(wait.(cancelled := true), Registered)
            && !s'.fibers[f].code.Cancelling?
  {
    hide Ev.CancelEvent, Ev.Agree;
    var wait := s.fibers[g].code.wait;
    if !wait.cancelled {
      assert Unmarked(s, wait.call);
      var s1 := CallBackNext(s, f, TimeoutOf(wait));
      assert s1.events == s.events && s1.queue == s.queue;
      CancelWakes(s, wait.fd, wait.event, g, refused);
    }
  }

  lemma FinishWakesIff(s: State, f: nat, g: nat, refused: bool)
    requires Ev.Agree(s.events) && f < |s.fibers| && Waiting(s, g)
    requires var wait := s.fibers[g].code.wait; s.fibers[f].code == Cancelling(wait.call, wait.fd, wait.event)
    ensures Wakes(s, FinishCancel(s, f, refused), g) <==> !refused
  {
    hide Ev.CancelEvent, Ev.Agree;
    CancelWakes(s, s.fibers[g].code.wait.fd, s.fibers[g].code.wait.event, g, refused);
  }

  // ---------- when a timeout is still to come ----------

  /** A callback that has marked the call and not yet cancelled its registration. */
  predicate MarkAtWork(fibers: seq<Fiber>, call: Call) {
    exists h :: 0 <= h < |fibers| && fibers[h].code.Cancelling? && fibers[h].code.call == call
  }

  function StartCallback(s: State, cb: Callback): State {
    s.(fibers := s.fibers + [Fiber(Running, None, RunCb(cb), 0)])
  }

  /** Something that belongs to the timeout of the call is pending, and it would wake the fiber if it ran to its end
      now: its callback, in a timer or on its way, or the second half of a callback. */
  ghost predicate TimeoutUnderWay(s: State, g: nat)
    requires Waiting(s, g)
  {
    var wait := s.fibers[g].code.wait;
    var cb := TimeoutOf(wait);
    || (Pending(s, cb) > 0 && Wakes(s, FireTimeout(StartCallback(s, cb), |s.fibers|, cb, false), g))
    || (exists h :: 0 <= h < |s.fibers| && s.fibers[h].code.Cancelling? && s.fibers[h].code.call == wait.call
         && Wakes(s, FinishCancel(s, h, false), g))
  }

  /** In every reachable state, for every call that waits with a timeout: the timeout is still under way iff the call
      is not marked, or the callback that marked it has not cancelled its registration yet. */
  lemma TimeoutUnderWayIff(n: nat, start: int, splitStop: bool, actions: seq<Action>, s: State, g: nat)
    requires ReachedBy(n, start, splitStop, actions, s) && Waiting(s, g) && s.fibers[g].code.wait.timeout.Some?
    ensures var wait := s.fibers[g].code.wait;
            && (TimeoutUnderWay(s, g) <==> !wait.cancelled || MarkAtWork(s.fibers, wait.call))
            && (TimeoutUnderWay(s, g) <==> !Lost(s, g))
  {
    hide Pending, Initial, Runs, Final, Inv, TimeoutInv, ReachedBy, FireTimeout, FinishCancel, Ev.Agree, Ev.WaiterAt;
    ReachedTimeouts(n, start, splitStop, actions, s);
    PartsAt(s, g);
    ArmedOf(s, g);
    var wait := s.fibers[g].code.wait;
    TimeoutWakesIff(StartCallback(s, TimeoutOf(wait)), |s.fibers|, g, false);
    if MarkAtWork(s.fibers, wait.call) {
      var h :| 0 <= h < |s.fibers| && s.fibers[h].code.Cancelling? && s.fibers[h].code.call == wait.call;
      MarkOf(s.fibers, h, g);
      FinishWakesIff(s, h, g, false);
    }
  }

  lemma ArmedOf(s: State, g: nat)
    requires TimeoutInv(s) && g < |s.fibers|
    ensures ArmedAt(s, g)
  {
  }

  lemma MarkOf(fibers: seq<Fiber>, h: nat, g: nat)
    requires MarksFit(fibers) && h < |fibers| && g < |fibers| && FiberOk(g, fibers[g]) && fibers[h].code.Cancelling?
    requires fibers[g].code.InCall? && fibers[h].code.call == fibers[g].code.wait.call
    ensures var wait := fibers[g].code.wait; fibers[h].code == Cancelling(wait.call, wait.fd, wait.event)
  {
    var c := fibers[h].code;
    assert Fits(c.call, c.fd, c.event, fibers);
  }

  // ---------- how a timeout is lost ----------

  /** The call is about to wait or waits, and its timeout will not end it. */
  predicate Lost(s: State, g: nat) {
    && g < |s.fibers| && s.fibers[g].code.InCall? && s.fibers[g].code.wait.timeout.Some?
    && s.fibers[g].code.wait.cancelled && !MarkAtWork(s.fibers, s.fibers[g].code.wait.call)
    && (s.fibers[g].code.phase.Registering? || Waiting(s, g))
  }

  /** The steps that lose a timeout: a call that was marked between two attempts arms its timer again; the callback
      cancels while the call has not registered yet; or the kernel refuses the cancellation. */
  predicate Loses(s: State, a: Action, g: nat) {
    && g < |s.fibers| && s.fibers[g].code.InCall? && s.fibers[g].code.wait.timeout.Some?
    && a.Exec? && a.w < |s.workers| && s.workers[a.w].pc.Run? && s.workers[a.w].pc.fiber < |s.fibers|
    && var f := s.workers[a.w].pc.fiber;
    var c := s.fibers[g].code;
    || (f == g && c.phase.Arming? && c.wait.cancelled && !MarkAtWork(s.fibers, c.wait.call))
    || (s.fibers[f].code.Cancelling? && s.fibers[f].code.call == c.wait.call
        && (c.phase.Registering? || (Waiting(s, g) && a.body.FireCancel? && a.body.refused)))
  }

  /** The fd context is what frees a call that has lost its timeout: its waiter is taken out of the slot, or its
      addEvent fails. */
  predicate Freed(s: State, s': State, g: nat) {
    && g < |s.fibers| && g < |s'.fibers| && s.fibers[g].code.InCall?
    && if s.fibers[g].code.phase.Registering? then
         s'.fibers[g].code.InCall? && s'.fibers[g].code.phase.AddFailed?
             && s'.fibers[g].code.wait == s.fibers[g].code.wait
       else Waiting(s, g) && s'.fibers[g].code == s.fibers[g].code && !Waiting(s', g)
  }

  /** The step loses no timeout, and brings none back. */
  predicate Faithful(s: State, s': State, g: nat) {
    (Lost(s', g) ==> Lost(s, g)) && (Lost(s, g) ==> Lost(s', g) || Freed(s, s', g))
  }

  lemma CalmIsFaithful(s: State, s': State, g: nat)
    requires Calm(s, s') && g < |s.fibers|
    ensures Faithful(s, s', g)
  {
    hide Pending;
    if s.fibers[g].code.InCall? {
      SameMarks(s.fibers, s'.fibers, s.fibers[g].code.wait.call);
      WaiterStays(s, s', g);
    }
  }

  /** No mark comes and none goes. */
  lemma SameMarks(fibers: seq<Fiber>, fibers': seq<Fiber>, call: Call)
    requires |fibers| <= |fibers'| && forall h :: |fibers| <= h < |fibers'| ==> !fibers'[h].code.Cancelling?
    requires forall h :: 0 <= h < |fibers| ==>
               fibers'[h].code == fibers[h].code || (!fibers[h].code.Cancelling? && !fibers'[h].code.Cancelling?)
    ensures MarkAtWork(fibers', call) <==> MarkAtWork(fibers, call)
  {
    if MarkAtWork(fibers, call) {
      var h :| 0 <= h < |fibers| && fibers[h].code.Cancelling? && fibers[h].code.call == call;
      assert fibers'[h].code == fibers[h].code;
    }
  }

  lemma WaiterStays(s: State, s': State, g: nat)
    requires g < |s.fibers| && g < |s'.fibers| && s'.fibers[g].code == s.fibers[g].code && s.fibers[g].code.InCall?
    requires var fd, e := s.fibers[g].code.wait.fd, s.fibers[g].code.wait.event;
             Ev.WaiterAt(s'.events, fd, e) == Some(g) ==> Ev.WaiterAt(s.events, fd, e) == Some(g)
    ensures Waiting(s', g) ==> Waiting(s, g)
  {
  }

  /** A step of another fiber, before and after which it has marked nothing. */
  lemma OtherIsFaithful(s: State, s': State, f: nat, g: nat)
    requires OthersStay(s.fibers, s'.fibers, f) && g < |s.fibers| && g != f
    requires !s.fibers[f].code.Cancelling? && !s'.fibers[f].code.Cancelling?
    requires forall fd: nat, e :: Ev.WaiterAt(s'.events, fd, e) == Some(g) ==> Ev.WaiterAt(s.events, fd, e) == Some(g)
    ensures Faithful(s, s', g)
  {
    if s.fibers[g].code.InCall? {
      SameMarks(s.fibers, s'.fibers, s.fibers[g].code.wait.call);
      WaiterStays(s, s', g);
    }
  }

  /** A step of the fiber itself outside its attempts. */
  lemma ElsewhereIsFaithful(s: State, s': State, g: nat)
    requires g < |s.fibers| && g < |s'.fibers|
    requires !(s.fibers[g].code.InCall? && (s.fibers[g].code.phase.Registering? || Waiting(s, g)))
    requires var c := s'.fibers[g].code; !(c.InCall? && (c.phase.Registering? || c.phase.Registered?))
    ensures Faithful(s, s', g)
  {
  }

  // ---------- every step ----------

  /** A step of fiber f, which is in no attempt, has marked nothing and marks nothing. */
  lemma OwnIsFaithful(s: State, s': State, f: nat, g: nat)
    requires OwnStep(s, s', f) && g < |s.fibers| && !s.fibers[f].code.Cancelling?
    requires g == f ==> !s.fibers[f].code.InCall? || (!s.fibers[f].code.phase.Registering? && !Waiting(s, f))
    requires var c := s'.fibers[f].code; g == f ==> !(c.InCall? && (c.phase.Registering? || c.phase.Registered?))
    ensures Faithful(s, s', g)
  {
    hide Pending, Fits, Faithful, Lost, Waiting;
    if g == f {
      ElsewhereIsFaithful(s, s', g);
    } else {
      OtherIsFaithful(s, s', f, g);
    }
  }

  /** The timer is armed: the timeout is lost iff the call carries a mark whose callback is through. */
  lemma ArmLoses(s: State, w: nat, f: nat, wait: Wait)
    requires Inside(s, w, f) && s.fibers[f].code == InCall(wait, Arming)
    ensures var s' := ArmNext(s, f, wait);
            !Lost(s, f) && (Lost(s', f) <==> wait.timeout.Some? && wait.cancelled && !MarkAtWork(s.fibers, wait.call))
  {
    hide Tm.Add;
    SameMarks(s.fibers, ArmNext(s, f, wait).fibers, wait.call);
  }

  lemma RegisterIsFaithful(s: State, w: nat, f: nat, wait: Wait, refused: bool, code: int)
    requires Ev.Agree(s.events) && Inside(s, w, f) && s.fibers[f].code == InCall(wait, Registering)
    requires |s.events.contexts| >= Ev.InitialSize
    ensures Faithful(s, RegisterNext(s, f, wait, refused, code), f)
  {
    hide Ev.AddEvent, Ev.Agree, Ev.WaiterAt, MarkAtWork, Queued;
    var s' := RegisterNext(s, f, wait, refused, code);
    Ev.AddEventWaiters(s.events, wait.fd, wait.event, Ev.FiberWaiter(f), refused, wait.fd, wait.event);
    SameMarks(s.fibers, s'.fibers, wait.call);
  }

  lemma YieldIsFaithful(s: State, w: nat, f: nat, c: Code)
    requires Inside(s, w, f) && s.fibers[f].code == c
    ensures Faithful(s, Suspend(s, w, f, Ready, c), f)
  {
    var s' := Suspend(s, w, f, Ready, c);
    if c.InCall? {
      SameMarks(s.fibers, s'.fibers, c.wait.call);
    }
  }

  lemma EventsAgreeAt(s: State)
    requires Waits(s)
    ensures Ev.Agree(s.events)
  {
  }

  lemma CallFate(s: State, w: nat, f: nat, wait: Wait, phase: Phase, op: BodyOp)
    requires At(s, w, f, InCall(wait, phase)) && CallNext(s, w, f, wait, phase, op).Some?
    ensures var s' := CallNext(s, w, f, wait, phase, op).value;
            if phase.Arming? then
              !Lost(s, f)
              && (Lost(s', f) <==> wait.timeout.Some? && wait.cancelled && !MarkAtWork(s.fibers, wait.call))
            else Faithful(s, s', f)
  {
    hide Control, TokensOk, Waits, Faithful, Lost, RegisterNext, ArmNext, Suspend, Tm.Cancel, Ev.Agree, Waiting;
    EventsAgreeAt(s);
    match phase {
      case Arming => ArmLoses(s, w, f, wait);
      case Registering => RegisterIsFaithful(s, w, f, wait, op.refused, op.code);
      case Registered => YieldIsFaithful(s, w, f, InCall(wait, Registered));
      case _ =>
        NotWaiting(s, f);
        ElsewhereIsFaithful(s, CallNext(s, w, f, wait, phase, op).value, f);
    }
  }

  lemma NotWaiting(s: State, g: nat)
    requires g < |s.fibers| && !(s.fibers[g].code.InCall? && s.fibers[g].code.phase.Registered?)
    ensures !Waiting(s, g)
  {
  }

  lemma MarkIsFaithful(s: State, f: nat, call: Call, fd: nat, e: Ev.Event, g: nat)
    requires FibersOk(s.fibers) && f < |s.fibers| && s.fibers[f].code == RunCb(TimeoutIo(call, fd, e))
    requires Unmarked(s, call) && g < |s.fibers|
    ensures Faithful(s, CallBackNext(s, f, TimeoutIo(call, fd, e)), g)
  {
    var s' := CallBackNext(s, f, TimeoutIo(call, fd, e));
    assert s'.fibers == MarkedBy(s.fibers, f, call, fd, e);
    assert FiberOk(g, s.fibers[g]);
    if g == call.fiber {
      assert s'.fibers[f].code.Cancelling? && s'.fibers[f].code.call == call;
    } else if s.fibers[g].code.InCall? {
      var mine := s.fibers[g].code.wait.call;
      assert mine != call;
      if MarkAtWork(s.fibers, mine) {
        var h :| 0 <= h < |s.fibers| && s.fibers[h].code.Cancelling? && s.fibers[h].code.call == mine;
        assert s'.fibers[h].code == s.fibers[h].code;
      }
    }
  }

  lemma CallBackIsFaithful(s: State, f: nat, cb: Callback, g: nat)
    requires Inv(s) && TimeoutInv(s) && f < |s.fibers| && s.fibers[f].code == RunCb(cb) && g < |s.fibers|
    ensures Faithful(s, CallBackNext(s, f, cb), g)
  {
    assert FibersOk(s.fibers);
    hide Inv, TimeoutInv, OwnStep, Faithful, FibersOk, Waiting;
    if !cb.TimeoutIo? {
      OtherCallbackIsOwn(s, f, cb);
      OwnIsFaithful(s, CallBackNext(s, f, cb), f, g);
    } else if Unmarked(s, cb.call) {
      MarkIsFaithful(s, f, cb.call, cb.fd, cb.event, g);
    } else if g == f {
      ElsewhereIsFaithful(s, CallBackNext(s, f, cb), g);
    } else {
      OtherIsFaithful(s, CallBackNext(s, f, cb), f, g);
    }
  }

  /** The second half of a callback loses the timeout of its own call iff the call is not in its slot to be found, or
      the kernel refuses; other calls keep theirs. */
  lemma FinishFate(s: State, f: nat, g: nat, refused: bool)
    requires Ev.Agree(s.events) && MarksFit(s.fibers)
    requires f < |s.fibers| && s.fibers[f].code.Cancelling? && g < |s.fibers| && FiberOk(g, s.fibers[g])
    ensures var s' := FinishCancel(s, f, refused);
            var c := s.fibers[g].code;
            if c.InCall? && c.wait.call == s.fibers[f].code.call then
              !Lost(s, g)
              && (Lost(s', g) <==>
                    c.wait.timeout.Some? && (c.phase.Registering? || (Waiting(s, g) && refused)))
            else Faithful(s, s', g)
  {
    hide Faithful, Lost, Waiting, Ev.Agree, MarksFit, FinishCancel;
    var c := s.fibers[g].code;
    if g == f {
      FinishMoves(s, f, refused);
      ElsewhereIsFaithful(s, FinishCancel(s, f, refused), g);
    } else if c.InCall? && c.wait.call == s.fibers[f].code.call {
      FinishOwn(s, f, g, refused);
    } else {
      FinishOther(s, f, g, refused);
    }
  }

  lemma FinishMoves(s: State, f: nat, refused: bool)
    requires Ev.Agree(s.events) && f < |s.fibers| && s.fibers[f].code.Cancelling?
    ensures var m, s' := s.fibers[f].code, FinishCancel(s, f, refused);
            && s'.fibers == s.fibers[f := s.fibers[f].(code := Leaving)]
            && Ev.NoNewWaiter(s.events, s'.events)
            && Ev.WaiterAt(s'.events, m.fd, m.event)
               == if refused then Ev.WaiterAt(s.events, m.fd, m.event) else None
  {
    hide Ev.CancelEvent, Ev.Agree, Ev.WaiterAt;
    Ev.CancelEventWaiters(s.events, s.fibers[f].code.fd, s.fibers[f].code.event, refused);
  }

  lemma FinishOwn(s: State, f: nat, g: nat, refused: bool)
    requires Ev.Agree(s.events) && MarksFit(s.fibers)
    requires f < |s.fibers| && s.fibers[f].code.Cancelling? && g < |s.fibers| && s.fibers[g].code.InCall?
    requires s.fibers[g].code.wait.call == s.fibers[f].code.call && s.fibers[f].code.call.fiber == g
    ensures var s', c := FinishCancel(s, f, refused), s.fibers[g].code;
            && !Lost(s, g)
            && (Lost(s', g) <==> c.wait.timeout.Some? && (c.phase.Registering? || (Waiting(s, g) && refused)))
  {
    FinishMoves(s, f, refused);
    hide Ev.Agree, Ev.WaiterAt, FinishCancel;
    var m, s' := s.fibers[f].code, FinishCancel(s, f, refused);
    assert Fits(m.call, m.fd, m.event, s.fibers) && MarkStays(m.call, s.fibers);
    assert !MarkAtWork(s'.fibers, m.call);
  }

  lemma FinishOther(s: State, f: nat, g: nat, refused: bool)
    requires Ev.Agree(s.events) && f < |s.fibers| && s.fibers[f].code.Cancelling? && g < |s.fibers| && g != f
    requires s.fibers[g].code.InCall? ==> s.fibers[g].code.wait.call != s.fibers[f].code.call
    ensures Faithful(s, FinishCancel(s, f, refused), g)
  {
    FinishMoves(s, f, refused);
    hide Ev.Agree, Ev.WaiterAt, FinishCancel;
    var s' := FinishCancel(s, f, refused);
    if s.fibers[g].code.InCall? {
      MarkOfOther(s.fibers, s'.fibers, f, s.fibers[g].code.wait.call);
      WaiterStays(s, s', g);
    }
  }

  lemma MarkOfOther(fibers: seq<Fiber>, fibers': seq<Fiber>, f: nat, call: Call)
    requires OthersStay(fibers, fibers', f) && fibers[f].code.Cancelling? && fibers[f].code.call != call
    ensures MarkAtWork(fibers, call) ==> MarkAtWork(fibers', call)
  {
    if MarkAtWork(fibers, call) {
      var h :| 0 <= h < |fibers| && fibers[h].code.Cancelling? && fibers[h].code.call == call;
      assert fibers'[h].code == fibers[h].code;
    }
  }

  lemma BodyFate(s: State, w: nat, f: nat, op: BodyOp, g: nat)
    requires TimeoutInv(s) && At(s, w, f, Body) && BodyNext(s, w, f, op).Some? && g < |s.fibers|
             && BodyNext(s, w, f, op).value.timers.limbo == map[]
    ensures Faithful(s, BodyNext(s, w, f, op).value, g)
  {
    hide TimeoutInv, OwnStep, Calm, Control, TokensOk, Waits, Faithful, WithEvents, Tm.Cancel, Tm.Refresh;
    hide Tm.Reset;
    if Restless(op) {
      BodyIsOwn(s, w, f, op);
      OwnIsFaithful(s, BodyNext(s, w, f, op).value, f, g);
    } else {
      hide BodyNext;
      BodyIsCalm(s, w, f, op);
      CalmIsFaithful(s, BodyNext(s, w, f, op).value, g);
    }
  }

  /** The fate of the timeout of fiber g under one step s -> s'. */
  predicate Fate(s: State, a: Action, s': State, g: nat) {
    if Loses(s, a, g) then !Lost(s, g) && Lost(s', g) else Faithful(s, s', g)
  }

  /** The other codes at which a fiber gives control back or goes on. */
  lemma SimpleFate(s: State, f: nat, s': State, g: nat)
    requires OwnStep(s, s', f) && g < |s.fibers| && !s.fibers[f].code.InCall? && !s.fibers[f].code.Cancelling?
    requires !s'.fibers[f].code.InCall?
    ensures Faithful(s, s', g)
  {
    hide OwnStep, Faithful;
    OwnIsFaithful(s, s', f, g);
  }

  lemma PartsAt(s: State, g: nat)
    requires Inv(s) && TimeoutInv(s) && g < |s.fibers|
    ensures Control(s) && TokensOk(s) && Waits(s) && FiberOk(g, s.fibers[g]) && MarksFit(s.fibers) && Ev.Agree(s.events)
  {
  }

  lemma LosesNothing(s: State, w: nat, op: BodyOp, g: nat)
    requires w < |s.workers| && s.workers[w].pc.Run? && s.workers[w].pc.fiber < |s.fibers|
    requires var c := s.fibers[s.workers[w].pc.fiber].code; !c.InCall? && !c.Cancelling?
    ensures !Loses(s, Exec(w, op), g)
  {
  }

  lemma ExecFate(s: State, w: nat, op: BodyOp, g: nat)
    requires Inv(s) && TimeoutInv(s) && w < |s.workers| && ExecNext(s, w, op).Some? && g < |s.fibers|
             && ExecNext(s, w, op).value.timers.limbo == map[]
    ensures Fate(s, Exec(w, op), ExecNext(s, w, op).value, g)
  {
    hide Inv, TimeoutInv, Control, TokensOk, Waits, OwnStep, BodyNext, CallNext, CallBackNext, Ev.CancelEvent, Ev.Agree;
    hide MarksFit, Faithful, Lost, Waiting, FiberOk, MarkAtWork, WithEvents, Loses;
    PartsAt(s, g);
    var f := s.workers[w].pc.fiber;
    if !s.fibers[f].code.InCall? && !s.fibers[f].code.Cancelling? {
      LosesNothing(s, w, op, g);
    }
    match s.fibers[f].code {
      case Body => BodyFate(s, w, f, op, g);
      case RunCb(cb) => CallBackIsFaithful(s, f, cb, g);
      case Cancelling(_, _, _) => FinishStepFate(s, w, f, op, g);
      case Leaving =>
        SuspendIsOwn(s, w, f, Term, Over);
        SimpleFate(s, f, ExecNext(s, w, op).value, g);
      case Asleep =>
        SuspendIsOwn(s, w, f, Ready, Asleep);
        SimpleFate(s, f, ExecNext(s, w, op).value, g);
      case InCall(wait, phase) => CallStepFate(s, w, f, wait, phase, op, g);
      case Exiting(_, _) =>
        SetCodeIsOwn(s, f, Body);
        SimpleFate(s, f, ExecNext(s, w, op).value, g);
      case _ =>
    }
  }

  lemma FinishStepFate(s: State, w: nat, f: nat, op: BodyOp, g: nat)
    requires Ev.Agree(s.events) && MarksFit(s.fibers) && Inside(s, w, f) && s.fibers[f].code.Cancelling?
    requires op.FireCancel? && g < |s.fibers| && FiberOk(g, s.fibers[g])
    ensures Fate(s, Exec(w, op), FinishCancel(s, f, op.refused), g)
  {
    hide Ev.Agree, MarksFit, Lost, Waiting, FinishCancel, MarkAtWork, FiberOk, Freed;
    FinishFate(s, f, g, op.refused);
  }

  lemma CallStepFate(s: State, w: nat, f: nat, wait: Wait, phase: Phase, op: BodyOp, g: nat)
    requires TimeoutInv(s) && At(s, w, f, InCall(wait, phase)) && CallNext(s, w, f, wait, phase, op).Some?
             && CallNext(s, w, f, wait, phase, op).value.timers.limbo == map[] && g < |s.fibers|
    ensures Fate(s, Exec(w, op), CallNext(s, w, f, wait, phase, op).value, g)
  {
    hide TimeoutInv, Control, TokensOk, Waits, OwnStep, Lost, Waiting, MarkAtWork, Freed;
    CallIsOwn(s, w, f, wait, phase, op);
    if g == f {
      hide CallNext;
      CallFate(s, w, f, wait, phase, op);
    } else {
      OwnIsFaithful(s, CallNext(s, w, f, wait, phase, op).value, f, g);
    }
  }

  lemma StepFate(s: State, w: nat, op: WorkerOp, g: nat)
    requires Inv(s) && TimeoutInv(s) && w < |s.workers| && StepNext(s, w, op).Some? && FreshReports(s, Step(w, op))
    requires g < |s.fibers|
    ensures Faithful(s, StepNext(s, w, op).value, g)
  {
    hide Inv, TimeoutInv, OwnStep, Calm, FreshReports, IdleMove, TakeNext, ExpireNext, HandNext, DispatchNext;
    hide ResumeFiber, ResumeCallback, Faithful;
    var s' := StepNext(s, w, op).value;
    if !op.Resume? {
      WorkerStepIsCalm(s, w, op);
      CalmIsFaithful(s, s', g);
    } else if s.workers[w].pc.task.work.FiberWork? {
      ResumeFate(s, w, s.workers[w].pc.task.work.fiber, g);
    } else {
      MakeCallbackIsCalm(s, w, s.workers[w].pc.task.work.cb);
      CalmIsFaithful(s, s', g);
    }
  }

  lemma ResumeFate(s: State, w: nat, f: nat, g: nat)
    requires Inv(s) && TimeoutInv(s) && w < |s.workers| && s.workers[w].pc.Popped? && g < |s.fibers|
             && s.workers[w].pc.task.work == FiberWork(f) && ResumeFiber(s, w, f).Some?
    ensures Faithful(s, ResumeFiber(s, w, f).value, g)
  {
    hide Inv, TimeoutInv, OwnStep, Faithful;
    ResumeIsOwn(s, w, f);
    ResumePending(s, w, f);
    PoppedNotHome(s, w, f);
    OwnIsFaithful(s, ResumeFiber(s, w, f).value, f, g);
  }

  /** For every admissible step from a state with the invariants, and so from every reachable one, and for every fiber:
      a timeout that is not lost is lost by the step iff the step is one of those that lose it, and one that is
      lost stays so until the fd context frees the fiber. */
  lemma TimeoutLostIff(s: State, a: Action, g: nat)
    requires Inv(s) && TimeoutInv(s) && Next(s, a).Some? && Admissible(s, a) && g < |s.fibers|
    ensures var s' := Next(s, a).value;
            && (!Lost(s, g) ==> (Lost(s', g) <==> Loses(s, a, g)))
            && (Lost(s, g) ==> Lost(s', g) || Freed(s, s', g))
  {
    hide Inv, TimeoutInv, Calm, StepNext, ExecNext, FreeDeadlines, FreshReports, Lost, Freed;
    NoneLeftOutIff(s, a);
    match a {
      case Step(w, op) =>
        hide Loses;
        StepLosesNothing(s, w, op, g);
        StepFate(s, w, op, g);
      case Exec(w, op) =>
        hide Loses;
        ExecFate(s, w, op, g);
      case _ =>
        OutsideIsCalm(s, a);
        CalmIsFaithful(s, Next(s, a).value, g);
    }
  }

  lemma StepLosesNothing(s: State, w: nat, op: WorkerOp, g: nat)
    ensures !Loses(s, Step(w, op), g)
  {
  }
}
