// What a call returns: the answer of do_io and connect_with_timeout is that of their last step.

module CallResults {
  import opened Base
  import opened Runtime
  import opened Invariants
  import opened WorkerSteps
  import opened BodyTokens
  import opened Reachable
  import opened Guarantees
  import opened CallErrno
  import Ev = Events
  import Tm = Timers

  // ---------- one step of one call ----------

  /** The system call has to be made again, at once or when the fd is ready. */
  predicate AsksAgain(kind: Kind, r: SysResult) {
    && r.Failure?
    && match kind
       case ReadWrite => r.errno == EINTR || r.errno == EAGAIN
       case Connect => r.errno == EINPROGRESS
  }

  /** The step ends the call. */
  predicate Ends(wait: Wait, phase: Phase, op: BodyOp) {
    match phase
    case Trying => op.Try? && !AsksAgain(wait.kind, op.result)
    case Checking => wait.cancelled || wait.kind == Connect
    case AddFailed(_) => true
    case _ => false
  }

  /** This is what the call returns when this was its last step: a system call's own result; ETIMEDOUT for a marked call
      that was woken; for a connect that was woken unmarked or not registered the verdict of SO_ERROR; the errno of a
      failed addEvent for a do_io. */
  predicate Answers(wait: Wait, outcome: Outcome, op: BodyOp) {
    match outcome
    case SysReturn(r) => op == Try(r) && !AsksAgain(wait.kind, r)
    case TimedOut => op.Check? && wait.cancelled
    case NotAdded(_) => op.Unarm? && wait.kind == ReadWrite
    case Probed(ok) =>
      wait.kind == Connect && ((op.Check? && !wait.cancelled && op.soOk == ok) || (op.Unarm? && op.soOk == ok))
  }

  /** Every step of a call under way ends it exactly in these cases, with the answer above. One that does not: do_io
      makes an interrupted system call again and one that would block after the wait, both arm their timer before
      they register, and a do_io that was woken unmarked starts over. */
  lemma CallEndsIff(s: State, w: nat, f: nat, wait: Wait, phase: Phase, op: BodyOp)
    requires Inside(s, w, f) && CallNext(s, w, f, wait, phase, op).Some?
    ensures var c := CallNext(s, w, f, wait, phase, op).value.fibers[f].code;
            && (c.Exiting? <==> Ends(wait, phase, op))
            && (c.Exiting? ==>
                  && c.wait.(timer := wait.timer) == wait && Answers(wait, c.outcome, op)
                  && (phase.AddFailed? && wait.kind == ReadWrite ==> c.outcome == NotAdded(phase.errno)))
            && (!c.Exiting? ==>
                  && c.InCall? && c.wait.(timer := wait.timer) == wait
                  && (c.phase == Trying <==>
                        || (phase.Trying? && wait.kind == ReadWrite && op.result == Failure(EINTR))
                        || (phase.Checking? && wait.kind == ReadWrite && !wait.cancelled))
                  && (c.phase == Arming <==> phase.Trying? && op.result != Failure(EINTR))
                  && (c.phase == Registering <==> phase.Arming?)
                  && (c.phase.AddFailed? || (c.phase.Registered? && !phase.Registered?) ==> phase.Registering?)
                  && (c.phase == Checking <==> phase.Resumed?))
  {
    hide RegisterNext, Tm.Add, Tm.Cancel;
    if phase.Registering? {
      RegisterGoesOn(s, f, wait, op.refused, op.code);
    }
  }

  lemma RegisterGoesOn(s: State, f: nat, wait: Wait, refused: bool, code: int)
    requires f < |s.fibers| && |s.events.contexts| >= Ev.InitialSize
    ensures var s' := RegisterNext(s, f, wait, refused, code);
            && f < |s'.fibers| && s'.fibers[f].code.InCall? && s'.fibers[f].code.wait == wait
            && (s'.fibers[f].code.phase.Registered? || s'.fibers[f].code.phase.AddFailed?)
  {
    hide Ev.AddEvent, Queued, Ev.Registered;
  }

  // ---------- one step of the runtime ----------

  /** The action is a step of this call. */
  predicate Acts(s: State, a: Action, call: Call) {
    && a.Exec? && a.w < |s.workers| && s.workers[a.w].pc == Run(call.fiber)
    && Current(s, call) && s.fibers[call.fiber].code.InCall?
  }

  /** A fiber that returns from a call did so before, or its call ended with this step. */
  predicate Returns(s: State, a: Action, x: Code, y: Code, g: nat) {
    y.Exiting? ==>
      || y == x
      || (x.InCall? && a.Exec? && a.w < |s.workers| && s.workers[a.w].pc == Run(g)
          && y.wait.(timer := x.wait.timer) == x.wait && Answers(y.wait, y.outcome, a.body))
  }

  lemma StepReturns(s: State, w: nat, op: WorkerOp, g: nat)
    requires w < |s.workers| && StepNext(s, w, op).Some? && g < |s.fibers|
    ensures var s' := StepNext(s, w, op).value;
            g < |s'.fibers| && Returns(s, Step(w, op), s.fibers[g].code, s'.fibers[g].code, g)
  {
    hide TakeNext, IdleMove, ExpireNext, HandNext, DispatchNext, Answers;
    if !op.Resume? {
      FibersStay(s, w, op);
    } else if s.workers[w].pc.task.work.FiberWork? {
      ResumeReturns(s, w, s.workers[w].pc.task.work.fiber, g);
    }
  }

  lemma ResumeReturns(s: State, w: nat, f: nat, g: nat)
    requires w < |s.workers| && ResumeFiber(s, w, f).Some? && g < |s.fibers|
    ensures var s' := ResumeFiber(s, w, f).value;
            g < |s'.fibers| && (s'.fibers[g].code.Exiting? ==> s'.fibers[g].code == s.fibers[g].code)
  {
  }

  lemma BodyReturns(s: State, w: nat, f: nat, op: BodyOp, g: nat)
    requires Inside(s, w, f) && s.fibers[f].code == Body && BodyNext(s, w, f, op).Some? && g < |s.fibers|
    ensures var s' := BodyNext(s, w, f, op).value;
            g < |s'.fibers| && (s'.fibers[g].code.Exiting? ==> s'.fibers[g].code == s.fibers[g].code)
  {
    hide Tm.Add, Tm.Cancel, Tm.Refresh, Tm.Reset, Ev.AddEvent, Ev.DelEvent, Ev.CancelEvent, Ev.CancelAll, Queued;
  }

  lemma CallReturns(s: State, w: nat, f: nat, wait: Wait, phase: Phase, op: BodyOp, g: nat)
    requires Inside(s, w, f) && s.fibers[f].code == InCall(wait, phase) && CallNext(s, w, f, wait, phase, op).Some?
    requires g < |s.fibers|
    ensures var s' := CallNext(s, w, f, wait, phase, op).value;
            g < |s'.fibers| && Returns(s, Exec(w, op), s.fibers[g].code, s'.fibers[g].code, g)
  {
    hide CallNext;
    CallEndsIff(s, w, f, wait, phase, op);
    CallLeavesOthers(s, w, f, wait, phase, op);
  }

  lemma ExecReturns(s: State, w: nat, op: BodyOp, g: nat)
    requires w < |s.workers| && ExecNext(s, w, op).Some? && g < |s.fibers|
    ensures var s' := ExecNext(s, w, op).value;
            g < |s'.fibers| && Returns(s, Exec(w, op), s.fibers[g].code, s'.fibers[g].code, g)
  {
    hide BodyNext, CallNext, CallBackNext, Suspend, SetCode, WithEvents, Answers;
    var f := s.workers[w].pc.fiber;
    match s.fibers[f].code {
      case Body => BodyReturns(s, w, f, op, g);
      case InCall(wait, phase) => CallReturns(s, w, f, wait, phase, op, g);
      case _ => OthersReturn(s, w, f, op, g);
    }
  }

  /** Fibers outside user code and calls. */
  lemma OthersReturn(s: State, w: nat, f: nat, op: BodyOp, g: nat)
    requires Inside(s, w, f) && ExecNext(s, w, op).Some? && g < |s.fibers|
    requires !s.fibers[f].code.Body? && !s.fibers[f].code.InCall?
    ensures var s' := ExecNext(s, w, op).value;
            g < |s'.fibers| && (s'.fibers[g].code.Exiting? ==> s'.fibers[g].code == s.fibers[g].code)
  {
    hide Ev.CancelEvent, Queued, BodyNext, CallNext, CallBackNext;
    if s.fibers[f].code.RunCb? {
      CallBackReturns(s, f, s.fibers[f].code.cb, g);
    }
  }

  lemma CallBackReturns(s: State, f: nat, cb: Callback, g: nat)
    requires f < |s.fibers| && g < |s.fibers| && s.fibers[f].code.RunCb?
    ensures var s' := CallBackNext(s, f, cb);
            g < |s'.fibers| && (s'.fibers[g].code.Exiting? ==> s'.fibers[g].code == s.fibers[g].code)
  {
  }

  lemma NextReturns(s: State, a: Action, g: nat)
    requires Next(s, a).Some? && g < |s.fibers|
    ensures var s' := Next(s, a).value; g < |s'.fibers| && Returns(s, a, s.fibers[g].code, s'.fibers[g].code, g)
  {
    hide StepNext, ExecNext, Answers;
    match a {
      case Step(w, op) => StepReturns(s, w, op, g);
      case Exec(w, op) => ExecReturns(s, w, op, g);
      case _ =>
    }
  }

  // ---------- every run ----------

  /** The last step of this call in the run, `before` being the last one before it. */
  ghost function LastAct(s: State, actions: seq<Action>, call: Call, before: Option<BodyOp>): Option<BodyOp>
    decreases |actions|
  {
    if actions == [] || Next(s, actions[0]).None? then before
    else LastAct(Next(s, actions[0]).value, actions[1..], call, ActOr(s, actions[0], call, before))
  }

  function ActOr(s: State, a: Action, call: Call, before: Option<BodyOp>): Option<BodyOp> {
    if Acts(s, a, call) then Some(a.body) else before
  }

  /** If the fiber returns from this call, then with the answer of its last step. */
  predicate AnsweredBy(s: State, call: Call, last: Option<BodyOp>) {
    Current(s, call) && s.fibers[call.fiber].code.Exiting? ==>
      last.Some? && Answers(s.fibers[call.fiber].code.wait, s.fibers[call.fiber].code.outcome, last.value)
  }

  lemma NextAnswers(s: State, a: Action, call: Call, last: Option<BodyOp>)
    requires AnsweredBy(s, call, last) && Next(s, a).Some?
    ensures AnsweredBy(Next(s, a).value, call, ActOr(s, a, call, last))
  {
    hide Next, Answers;
    var g := call.fiber;
    if g < |s.fibers| {
      NextReturns(s, a, g);
    } else {
      NewFibers(s, a, g);
    }
  }

  lemma {:induction false} RunAnswers(s: State, actions: seq<Action>, call: Call, last: Option<BodyOp>)
    requires AnsweredBy(s, call, last) && Runs(s, actions)
    ensures AnsweredBy(Final(s, actions), call, LastAct(s, actions, call, last))
    decreases |actions|
  {
    hide Next, Admissible, AnsweredBy, ActOr;
    if actions != [] {
      NextAnswers(s, actions[0], call, last);
      RunAnswers(Next(s, actions[0]).value, actions[1..], call, ActOr(s, actions[0], call, last));
    }
  }

  /** Over every run, for both kinds of call: what a call is about to return is the answer of its last step in the run.
      So the value of a system call that was made is handed on as it is, and the verdict on a connection is what
      SO_ERROR said. */
  lemma AnswerIsTheLastOne(n: nat, start: int, splitStop: bool, actions: seq<Action>, s: State, f: nat)
    requires ReachedBy(n, start, splitStop, actions, s) && f < |s.fibers| && s.fibers[f].code.Exiting?
    ensures var c := s.fibers[f].code;
            var last := LastAct(Initial(n, start, splitStop), actions, c.wait.call, None);
            && last.Some? && Answers(c.wait, c.outcome, last.value)
            && (forall r :: c.outcome == SysReturn(r) ==> last == Some(Try(r)))
            && (forall ok :: c.outcome == Probed(ok) ==> last == Some(Check(ok)) || last == Some(Unarm(ok)))
  {
    hide Inv, Runs, Final, Initial;
    ReachedHasInv(n, start, splitStop, actions, s);
    PartsOf(s);
    assert FiberOk(f, s.fibers[f]);
    var s0 := Initial(n, start, splitStop);
    NobodyReturns(n, start, splitStop, s.fibers[f].code.wait.call);
    RunAnswers(s0, actions, s.fibers[f].code.wait.call, None);
  }

  lemma NobodyReturns(n: nat, start: int, splitStop: bool, call: Call)
    ensures AnsweredBy(Initial(n, start, splitStop), call, None)
  {
  }
}
