// Which errno a do_io can leave: it takes EAGAIN from a call whose event was registered already.

module CallErrno {
  import opened Base
  import opened Runtime
  import opened Invariants
  import opened WorkerSteps
  import opened BodyTokens
  import opened Reachable
  import opened Guarantees
  import Ev = Events
  import Tm = Timers

  /** The fiber is in this call. */
  predicate Current(s: State, call: Call) {
    && call.fiber < |s.fibers| && HasWait(s.fibers[call.fiber].code) && s.fibers[call.fiber].code.wait.call == call
  }

  /** The call has been made and has returned. */
  predicate Returned(s: State, call: Call) {
    call.fiber < |s.fibers| && call.seqno < s.fibers[call.fiber].calls && !Current(s, call)
  }

  predicate InDoIo(s: State, call: Call) {
    Current(s, call) && s.fibers[call.fiber].code.wait.kind == ReadWrite
  }

  /** addEvent has failed and left EAGAIN behind. */
  predicate HasEagain(c: Code) {
    match c
    case InCall(_, AddFailed(errno)) => errno == EAGAIN
    case Exiting(_, NotAdded(errno)) => errno == EAGAIN
    case _ => false
  }

  predicate Blocked(s: State, call: Call) {
    Current(s, call) && HasEagain(s.fibers[call.fiber].code)
  }

  /** The action is an addEvent of this call that finds its event registered. */
  predicate FindsRegistered(s: State, a: Action, call: Call) {
    && a.Exec? && a.w < |s.workers| && s.workers[a.w].pc == Run(call.fiber) && InDoIo(s, call)
    && var c := s.fibers[call.fiber].code;
    c.InCall? && c.phase.Registering? && Ev.Registered(s.events, c.wait.fd, c.wait.event)
  }

  ghost predicate SomeFindsRegistered(s: State, actions: seq<Action>, call: Call)
    decreases |actions|
  {
    && actions != [] && Next(s, actions[0]).Some?
    && (FindsRegistered(s, actions[0], call) || SomeFindsRegistered(Next(s, actions[0]).value, actions[1..], call))
  }

  // ---------- one step ----------

  /** What one step can do to one fiber, as far as its calls go; `finds` says that it is an addEvent that finds its
      event registered. */
  predicate Moves(x: Fiber, y: Fiber, finds: bool) {
    || (y.code == x.code && y.calls == x.calls && !finds)
    || (y.calls == x.calls && !HasWait(y.code) && !finds)
    || (y.calls == x.calls && x.code.InCall? && HasWait(y.code)
        && y.code.wait.call == x.code.wait.call && y.code.wait.kind == x.code.wait.kind
        && (x.code.wait.kind == ReadWrite ==> (HasEagain(y.code) <==> HasEagain(x.code) || finds)))
    || (!HasWait(x.code) && y.calls == x.calls + 1 && y.code.InCall? && y.code.phase.Trying?
        && y.code.wait.call.seqno == x.calls && !finds)
  }

  predicate Finds(s: State, a: Action, g: nat)
    requires g < |s.fibers|
  {
    && a.Exec? && a.w < |s.workers| && s.workers[a.w].pc == Run(g)
    && var c := s.fibers[g].code;
    c.InCall? && c.wait.kind == ReadWrite && c.phase.Registering? && Ev.Registered(s.events, c.wait.fd, c.wait.event)
  }

  lemma RegisterMoves(s: State, w: nat, f: nat, wait: Wait, op: BodyOp)
    requires Ev.Agree(s.events) && |s.events.contexts| >= Ev.InitialSize && Inside(s, w, f) && op.Register?
    requires s.fibers[f].code == InCall(wait, Registering)
    ensures var s' := RegisterNext(s, f, wait, op.refused, op.code);
            Moves(s.fibers[f], s'.fibers[f], Finds(s, Exec(w, op), f))
  {
    hide Ev.AddEvent, Ev.Agree, Queued, Ev.Registered;
    RegisterOutcome(s, wait, f, op.refused);
  }

  lemma CallMoves(s: State, w: nat, f: nat, wait: Wait, phase: Phase, op: BodyOp)
    requires Ev.Agree(s.events) && Inside(s, w, f)
    requires s.fibers[f].code == InCall(wait, phase) && CallNext(s, w, f, wait, phase, op).Some?
    ensures var s' := CallNext(s, w, f, wait, phase, op).value;
            |s'.fibers| == |s.fibers| && Moves(s.fibers[f], s'.fibers[f], Finds(s, Exec(w, op), f))
  {
    hide Ev.AddEvent, Ev.Agree, Tm.Add, Tm.Cancel, RegisterNext;
    if phase.Registering? {
      RegisterMoves(s, w, f, wait, op);
      CallLeavesOthers(s, w, f, wait, phase, op);
    }
  }

  /** A step of a call changes no fiber but its own. */
  lemma CallLeavesOthers(s: State, w: nat, f: nat, wait: Wait, phase: Phase, op: BodyOp)
    requires w < |s.workers| && f < |s.fibers| && CallNext(s, w, f, wait, phase, op).Some?
    ensures var s' := CallNext(s, w, f, wait, phase, op).value; s'.fibers == s.fibers[f := s'.fibers[f]]
  {
    hide TryCode, CheckCode, AddErrno, Ev.AddEvent, Tm.Cancel, Tm.Add;
    if phase.Registering? {
      RegisterLeavesOthers(s, f, wait, op.refused, op.code);
    }
  }

  lemma RegisterLeavesOthers(s: State, f: nat, wait: Wait, refused: bool, code: int)
    requires f < |s.fibers| && |s.events.contexts| >= Ev.InitialSize
    ensures var s' := RegisterNext(s, f, wait, refused, code); s'.fibers == s.fibers[f := s'.fibers[f]]
  {
    hide AddErrno, Ev.AddEvent, Queued;
  }

  lemma RegisterOutcome(s: State, wait: Wait, f: nat, refused: bool)
    requires Ev.Agree(s.events)
    ensures var r := Ev.AddEvent(s.events, wait.fd, wait.event, Ev.FiberWaiter(f), refused);
            r.Done? && (r.ret <==> !refused && !Ev.Registered(s.events, wait.fd, wait.event))
  {
    hide Ev.AddEvent;
    Ev.AddEventKeeps(s.events, wait.fd, wait.event, Ev.FiberWaiter(f), refused, NotUser());
    Ev.EnsureContextKeeps(s.events, wait.fd, NotUser());
    GrowthRegistersNothing(s.events, wait.fd, wait.event);
  }

  lemma GrowthRegistersNothing(t: EventTable, fd: nat, e: Ev.Event)
    requires Ev.Agree(t)
    ensures Ev.Registered(Ev.EnsureContext(t, fd), fd, e) <==> Ev.Registered(t, fd, e)
  {
  }

  lemma BodyMoves(s: State, w: nat, f: nat, op: BodyOp, g: nat)
    requires Inside(s, w, f) && s.fibers[f].code == Body && BodyNext(s, w, f, op).Some? && g < |s.fibers|
    ensures var s' := BodyNext(s, w, f, op).value;
            g < |s'.fibers| && Moves(s.fibers[g], s'.fibers[g], Finds(s, Exec(w, op), g))
  {
    hide Tm.Add, Tm.Cancel, Tm.Refresh, Tm.Reset, Ev.AddEvent, Ev.DelEvent, Ev.CancelEvent, Ev.CancelAll;
    hide Queued, Ev.Registered, UserHandle;
  }

  lemma CallBackMoves(s: State, w: nat, f: nat, cb: Callback, g: nat)
    requires Inside(s, w, f) && s.fibers[f].code == RunCb(cb) && g < |s.fibers|
    ensures var s' := CallBackNext(s, f, cb); g < |s'.fibers| && Moves(s.fibers[g], s'.fibers[g], false)
  {
  }

  lemma ExecMoves(s: State, w: nat, op: BodyOp, g: nat)
    requires Inv(s) && w < |s.workers| && ExecNext(s, w, op).Some? && g < |s.fibers|
    ensures var s' := ExecNext(s, w, op).value;
            g < |s'.fibers| && Moves(s.fibers[g], s'.fibers[g], Finds(s, Exec(w, op), g))
  {
    hide Inv, BodyNext, CallNext, CallBackNext, Ev.CancelEvent, Moves, Ev.Agree;
    PartsOf(s);
    var f := s.workers[w].pc.fiber;
    match s.fibers[f].code {
      case Body => BodyMoves(s, w, f, op, g);
      case RunCb(cb) => CallBackMoves(s, w, f, cb, g);
      case InCall(wait, phase) =>
        CallMoves(s, w, f, wait, phase, op);
        CallLeavesOthers(s, w, f, wait, phase, op);
        SameMoves(s.fibers[g]);
      case _ => PlainMoves(s, w, f, op, g);
    }
  }

  lemma SameMoves(x: Fiber)
    ensures Moves(x, x, false)
  {
  }

  /** Callbacks in their second half, sleepers and returning calls. */
  lemma PlainMoves(s: State, w: nat, f: nat, op: BodyOp, g: nat)
    requires Inside(s, w, f) && ExecNext(s, w, op).Some? && g < |s.fibers|
    requires var c := s.fibers[f].code; !c.Body? && !c.RunCb? && !c.InCall?
    ensures var s' := ExecNext(s, w, op).value;
            g < |s'.fibers| && Moves(s.fibers[g], s'.fibers[g], Finds(s, Exec(w, op), g))
  {
    hide Ev.CancelEvent, Queued, Ev.Registered, HasEagain, Moves;
    var s' := ExecNext(s, w, op).value;
    assert g != f ==> s'.fibers[g] == s.fibers[g];
    if g == f && !(s.fibers[f].code.Asleep?) {
      LeavesCall(s.fibers[f], s'.fibers[f]);
    } else {
      StaysThere(s.fibers[g], s'.fibers[g]);
    }
  }

  lemma LeavesCall(x: Fiber, y: Fiber)
    requires y.calls == x.calls && !HasWait(y.code)
    ensures Moves(x, y, false)
  {
  }

  lemma StaysThere(x: Fiber, y: Fiber)
    requires y.calls == x.calls && y.code == x.code
    ensures Moves(x, y, false)
  {
  }

  lemma ResumeMoves(s: State, w: nat, f: nat, g: nat)
    requires w < |s.workers| && f < |s.fibers| && g < |s.fibers| && FiberOk(f, s.fibers[f])
    requires ResumeFiber(s, w, f).Some?
    ensures var s' := ResumeFiber(s, w, f).value;
            |s'.fibers| == |s.fibers| && Moves(s.fibers[g], s'.fibers[g], false)
  {
  }

  lemma StepMoves(s: State, w: nat, op: WorkerOp, g: nat)
    requires FibersOk(s.fibers) && w < |s.workers| && StepNext(s, w, op).Some? && g < |s.fibers|
    ensures var s' := StepNext(s, w, op).value; g < |s'.fibers| && Moves(s.fibers[g], s'.fibers[g], false)
  {
    hide Moves, ResumeFiber, IdleMove, TakeNext, ExpireNext, HandNext, DispatchNext;
    SameMoves(s.fibers[g]);
    if !op.Resume? {
      FibersStay(s, w, op);
    } else if s.workers[w].pc.task.work.FiberWork? {
      PoppedExists(s, w, s.workers[w].pc.task.work.fiber);
      ResumeMoves(s, w, s.workers[w].pc.task.work.fiber, g);
    }
  }

  lemma PoppedExists(s: State, w: nat, f: nat)
    requires w < |s.workers| && ResumeFiber(s, w, f).Some?
    ensures f < |s.fibers|
  {
  }

  lemma NextMoves(s: State, a: Action, g: nat)
    requires Inv(s) && Next(s, a).Some? && g < |s.fibers|
    ensures var s' := Next(s, a).value; g < |s'.fibers| && Moves(s.fibers[g], s'.fibers[g], Finds(s, a, g))
  {
    hide Inv, StepNext, ExecNext, Moves;
    match a {
      case Step(w, op) =>
        PartsOf(s);
        StepMoves(s, w, op, g);
      case Exec(w, op) => ExecMoves(s, w, op, g);
      case _ => SameMoves(s.fibers[g]);
    }
  }

  // ---------- every run ----------

  /** What a step does to one call; a call that returned stays so. */
  predicate CallMovesOn(s: State, a: Action, s': State, call: Call) {
    && (Returned(s, call) ==> Returned(s', call))
    && (Current(s, call) ==> Current(s', call) || Returned(s', call))
    && (Current(s, call) && Current(s', call) ==> (InDoIo(s, call) <==> InDoIo(s', call)))
    && (InDoIo(s', call) ==> (Blocked(s', call) <==> Blocked(s, call) || FindsRegistered(s, a, call)))
    && (FindsRegistered(s, a, call) ==> Current(s, call))
  }

  lemma NextCall(s: State, a: Action, call: Call)
    requires Inv(s) && Next(s, a).Some?
    ensures CallMovesOn(s, a, Next(s, a).value, call)
  {
    hide Next, Inv, Control, TokensOk, Ev.Agree, TermOk;
    var g := call.fiber;
    if g < |s.fibers| {
      NextMoves(s, a, g);
      PartsOf(s);
      assert FiberOk(g, s.fibers[g]);
    } else {
      NewFibers(s, a, g);
    }
  }

  /** A fiber that was not there is in no call. */
  predicate InNoCall(s': State, g: nat) {
    g < |s'.fibers| ==> !HasWait(s'.fibers[g].code)
  }

  lemma NewFibers(s: State, a: Action, g: nat)
    requires Next(s, a).Some? && g >= |s.fibers|
    ensures InNoCall(Next(s, a).value, g)
  {
    hide StepNext, ExecNext;
    match a {
      case Step(w, op) =>
        if op.Resume? {
          NewByResume(s, w, g);
        } else {
          FibersStay(s, w, op);
        }
      case Exec(w, op) => NewByExec(s, w, op, g);
      case _ =>
    }
  }

  lemma NewByResume(s: State, w: nat, g: nat)
    requires w < |s.workers| && StepNext(s, w, Resume).Some? && g >= |s.fibers|
    ensures InNoCall(StepNext(s, w, Resume).value, g)
  {
  }

  lemma NewByExec(s: State, w: nat, op: BodyOp, g: nat)
    requires w < |s.workers| && ExecNext(s, w, op).Some? && g >= |s.fibers|
    ensures InNoCall(ExecNext(s, w, op).value, g)
  {
    hide BodyNext, CallNext, Ev.CancelEvent;
    var f := s.workers[w].pc.fiber;
    match s.fibers[f].code {
      case Body => NewByBody(s, w, f, op, g);
      case InCall(wait, phase) => CallLeavesOthers(s, w, f, wait, phase, op);
      case _ =>
    }
  }

  lemma NewByBody(s: State, w: nat, f: nat, op: BodyOp, g: nat)
    requires w < |s.workers| && f < |s.fibers| && BodyNext(s, w, f, op).Some? && g >= |s.fibers|
    ensures InNoCall(BodyNext(s, w, f, op).value, g)
  {
    hide Tm.Add, Tm.Cancel, Tm.Refresh, Tm.Reset, Ev.AddEvent, Ev.DelEvent, Ev.CancelEvent, Ev.CancelAll;
  }

  lemma {:induction false} RunStaysReturned(s: State, actions: seq<Action>, call: Call)
    requires Inv(s) && Runs(s, actions) && Returned(s, call)
    ensures Returned(Final(s, actions), call)
    decreases |actions|
  {
    hide Inv, Next, Admissible, Returned;
    if actions != [] {
      NextKeepsInv(s, actions[0]);
      StaysReturned(s, actions[0], call);
      RunStaysReturned(Next(s, actions[0]).value, actions[1..], call);
    }
  }

  lemma StaysReturned(s: State, a: Action, call: Call)
    requires Inv(s) && Next(s, a).Some? && Returned(s, call)
    ensures Returned(Next(s, a).value, call)
  {
    hide Inv, Next;
    NextCall(s, a, call);
  }

  lemma {:induction false} BlockedIff(s: State, actions: seq<Action>, call: Call)
    requires Inv(s) && Runs(s, actions) && InDoIo(Final(s, actions), call)
    ensures Current(s, call) ==> InDoIo(s, call)
    ensures Blocked(Final(s, actions), call) <==> Blocked(s, call) || SomeFindsRegistered(s, actions, call)
    decreases |actions|
  {
    hide Inv, Next, Admissible, FindsRegistered;
    if actions != [] {
      var s1 := Next(s, actions[0]).value;
      NextKeepsInv(s, actions[0]);
      NextCall(s, actions[0], call);
      BlockedIff(s1, actions[1..], call);
      if Returned(s1, call) {
        RunStaysReturned(s1, actions[1..], call);
      }
    }
  }

  /** A do_io leaves EAGAIN to its caller iff an addEvent of this call found its event registered: another fiber, or a
      callback, waits for the same event of the same fd. */
  lemma WouldBlockIffRegistered(n: nat, start: int, splitStop: bool, actions: seq<Action>, s: State, f: nat)
    requires ReachedBy(n, start, splitStop, actions, s)
    requires f < |s.fibers| && s.fibers[f].code.Exiting? && s.fibers[f].code.wait.kind == ReadWrite
    ensures ErrnoOf(s.fibers[f].code.outcome) == Some(EAGAIN)
            <==> SomeFindsRegistered(Initial(n, start, splitStop), actions, s.fibers[f].code.wait.call)
  {
    hide Inv, Runs, Final, SomeFindsRegistered;
    ReachedHasInv(n, start, splitStop, actions, s);
    PartsOf(s);
    assert FiberOk(f, s.fibers[f]);
    InitialInv(n, start, splitStop);
    BlockedIff(Initial(n, start, splitStop), actions, s.fibers[f].code.wait.call);
  }
}
