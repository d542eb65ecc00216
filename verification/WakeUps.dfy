// What ends the wait of a fiber in a fd context: exactly these steps, and then it is queued.

module WakeUps {
  import opened Base
  import opened TaskQueue
  import opened Runtime
  import opened Invariants
  import opened WorkerSteps
  import opened WorkerTimeouts
  import opened BodyTokens
  import opened BodyTimeouts
  import opened Reachable
  import opened TimeoutFate
  import Ev = Events
  import Tm = Timers

  /** The step takes the waiter of event e on fd: the dispatch of a report of this event or of an error, cancelEvent,
      the cancelAll of close, or the cancelEvent of a timeout, unless the kernel refuses. */
  predicate Takes(s: State, a: Action, fd: nat, e: Ev.Event) {
    match a
    case Step(w, Dispatch(refused)) =>
      && !refused && w < |s.workers| && s.workers[w].pc.Carrying? && s.workers[w].pc.reports != []
      && var r := s.workers[w].pc.reports[0];
      r.fd == fd && (r.error || (match e case Read => r.input case Write => r.output))
    case Exec(w, op) =>
      && w < |s.workers| && s.workers[w].pc.Run? && s.workers[w].pc.fiber < |s.fibers|
      && (match s.fibers[s.workers[w].pc.fiber].code
          case Body => op == CancelIo(fd, e, false) || op == Close(fd, false)
          case Cancelling(_, fd', e') => fd' == fd && e' == e && op == FireCancel(false)
          case _ => false)
    case _ => false
  }

  /** The state of the events afterwards: the waiter is gone from the slot and in the queue, or still in its slot. */
  predicate Outcome(s: State, a: Action, s': State, fd: nat, e: Ev.Event)
    requires Ev.WaiterAt(s.events, fd, e).Some?
  {
    && Ev.WaiterAt(s'.events, fd, e) == (if Takes(s, a, fd, e) then None else Ev.WaiterAt(s.events, fd, e))
    && (Takes(s, a, fd, e) ==> Task(FiberWork(Ev.WaiterAt(s.events, fd, e).value), -1) in s'.queue)
  }

  lemma {:induction false} QueuedHas(woken: seq<Waiter>, f: nat)
    requires Ev.FiberWaiter(f) in woken
    ensures Task(FiberWork(f), -1) in Queued(woken)
  {
    if woken[0] != Ev.FiberWaiter(f) {
      QueuedHas(woken[1..], f);
    }
  }

  /** A waiting fiber is the target of its slot, and the event is registered. */
  lemma WaiterIsTarget(t: EventTable, fd: nat, e: Ev.Event)
    requires Ev.Agree(t) && Ev.WaiterAt(t, fd, e).Some?
    ensures Ev.Registered(t, fd, e) && t.contexts[fd].Slot(e).Target() == [Ev.FiberWaiter(Ev.WaiterAt(t, fd, e).value)]
  {
    assert t.contexts[fd].Consistent();
  }

  lemma DispatchFrees(t: EventTable, r: Ev.Report, refused: bool, fd: nat, e: Ev.Event)
    requires Ev.Agree(t) && r.fd < |t.contexts| && Ev.Fresh(t, r) && Ev.WaiterAt(t, fd, e).Some?
    ensures var d, x := Ev.Dispatch(t, r, refused), Ev.WaiterAt(t, fd, e);
            var hit := !refused && r.fd == fd && Ev.Named(r).Has(e);
            && d.Done? && Ev.WaiterAt(d.table, fd, e) == (if hit then None else x)
            && (hit ==> Ev.FiberWaiter(x.value) in d.woken)
  {
    Ev.DispatchKeeps(t, r, refused, NotUser());
    WaiterIsTarget(t, fd, e);
    hide Ev.Agree, Ev.Dispatch, Ev.WaiterAt, Ev.Fresh;
    Ev.DispatchWaiters(t, r, refused);
    Ev.ReportTakesEvents(t, r);
  }

  lemma DispatchTakes(s: State, w: nat, refused: bool, fd: nat, e: Ev.Event)
    requires Ev.Agree(s.events) && w < |s.workers| && StepNext(s, w, Dispatch(refused)).Some?
    requires FreshReports(s, Step(w, Dispatch(refused))) && Ev.WaiterAt(s.events, fd, e).Some?
    ensures Outcome(s, Step(w, Dispatch(refused)), StepNext(s, w, Dispatch(refused)).value, fd, e)
  {
    hide Ev.Agree, Ev.Dispatch, Ev.WaiterAt, Queued, Ev.Fresh;
    var r, x := s.workers[w].pc.reports[0], Ev.WaiterAt(s.events, fd, e);
    DispatchFrees(s.events, r, refused, fd, e);
    var woken := Ev.Dispatch(s.events, r, refused).woken;
    if Ev.FiberWaiter(x.value) in woken {
      QueuedHas(woken, x.value);
    }
  }

  lemma CancelTakes(s: State, fd: nat, e: Ev.Event, fd': nat, e': Ev.Event, refused: bool)
    requires Ev.Agree(s.events) && Ev.WaiterAt(s.events, fd, e).Some?
    ensures var r, x := Ev.CancelEvent(s.events, fd', e', refused), Ev.WaiterAt(s.events, fd, e);
            && r.Done?
            && Ev.WaiterAt(r.table, fd, e) == (if !refused && fd' == fd && e' == e then None else x)
            && (!refused && fd' == fd && e' == e ==> Task(FiberWork(x.value), -1) in Queued(r.woken))
  {
    hide Ev.Agree, Ev.CancelEvent, Ev.WaiterAt;
    Ev.CancelEventWaiters(s.events, fd', e', refused);
    if !refused && fd' == fd && e' == e {
      CancelWakes(s, fd, e, Ev.WaiterAt(s.events, fd, e).value, refused);
    }
  }

  lemma CloseTakes(s: State, fd: nat, e: Ev.Event, fd': nat, refused: bool)
    requires Ev.Agree(s.events) && Ev.WaiterAt(s.events, fd, e).Some?
    ensures var r, x := Ev.CancelAll(s.events, fd', refused), Ev.WaiterAt(s.events, fd, e);
            && r.Done?
            && Ev.WaiterAt(r.table, fd, e) == (if !refused && fd' == fd then None else x)
            && (!refused && fd' == fd ==> Task(FiberWork(x.value), -1) in Queued(r.woken))
  {
    hide Ev.Agree, Ev.CancelAll, Ev.WaiterAt;
    Ev.CancelAllWaiters(s.events, fd', refused);
    WaiterIsTarget(s.events, fd, e);
    if !refused && fd' == fd {
      QueuedHas(Ev.CancelAll(s.events, fd', refused).woken, Ev.WaiterAt(s.events, fd, e).value);
    }
  }

  /** addEvent for a callback and delEvent take no fiber out of its slot. */
  lemma OtherEventTakesNone(s: State, op: BodyOp, fd: nat, e: Ev.Event)
    requires Ev.Agree(s.events) && SlotsOk(s.events.contexts) && Ev.WaiterAt(s.events, fd, e).Some?
    requires (op.Watch? && |s.events.contexts| >= Ev.InitialSize)
             || (op.Unwatch? && (op.fd < |s.events.contexts| ==> s.events.contexts[op.fd].Slot(op.event).fiber.None?))
    ensures EventResult(s, op).Done?
            && Ev.WaiterAt(EventResult(s, op).table, fd, e) == Ev.WaiterAt(s.events, fd, e)
  {
    hide Ev.Agree, SlotsOk, Ev.AddEvent, Ev.DelEvent;
    match op
    case Watch(fd', e', id, refused) =>
      Ev.AddEventWaiters(s.events, fd', e', Ev.CbWaiter(UserCb(id)), refused, fd, e);
    case Unwatch(fd', e', refused) => Ev.DelEventWaiters(s.events, fd', e', refused);
  }

  lemma BodyTakes(s: State, w: nat, f: nat, op: BodyOp, fd: nat, e: Ev.Event)
    requires Waits(s) && Inside(s, w, f) && s.fibers[f].code == Body && BodyNext(s, w, f, op).Some?
    requires KeepsWaiters(s, Exec(w, op)) && Ev.WaiterAt(s.events, fd, e).Some?
    ensures Outcome(s, Exec(w, op), BodyNext(s, w, f, op).value, fd, e)
  {
    hide Waits, Ev.Agree, Ev.WaiterAt, Ev.CancelEvent, Ev.CancelAll, Ev.AddEvent, Ev.DelEvent, Queued, AddTimer;
    hide SetCode, Suspend, Tm.Cancel, Tm.Refresh, Tm.Reset, KeepsWaiters;
    EventsAgreeAt(s);
    if op.CancelIo? {
      CancelTakes(s, fd, e, op.fd, op.event, op.refused);
    } else if op.Close? {
      CloseTakes(s, fd, e, op.fd, op.refused);
    } else {
      QuietTakesNone(s, w, f, op, fd, e);
    }
  }

  lemma QuietTakesNone(s: State, w: nat, f: nat, op: BodyOp, fd: nat, e: Ev.Event)
    requires Waits(s) && Inside(s, w, f) && BodyNext(s, w, f, op).Some? && !op.CancelIo? && !op.Close?
    requires KeepsWaiters(s, Exec(w, op)) && Ev.WaiterAt(s.events, fd, e).Some?
    ensures Ev.WaiterAt(BodyNext(s, w, f, op).value.events, fd, e) == Ev.WaiterAt(s.events, fd, e)
  {
    hide Ev.Agree, Ev.WaiterAt, Ev.AddEvent, Ev.DelEvent, SlotsOk, Tm.Add, Tm.Cancel, Tm.Refresh, Tm.Reset;
    if op.Watch? || op.Unwatch? {
      OtherEventTakesNone(s, op, fd, e);
      assert BodyNext(s, w, f, op).value == WithEvents(s, EventResult(s, op));
    }
  }

  lemma RegisterTakesNone(s: State, f: nat, wait: Wait, refused: bool, code: int, fd: nat, e: Ev.Event)
    requires Ev.Agree(s.events) && f < |s.fibers| && |s.events.contexts| >= Ev.InitialSize
    requires Ev.WaiterAt(s.events, fd, e).Some?
    ensures Ev.WaiterAt(RegisterNext(s, f, wait, refused, code).events, fd, e) == Ev.WaiterAt(s.events, fd, e)
  {
    hide Ev.Agree, Ev.AddEvent, Queued, Ev.WaiterAt;
    Ev.AddEventWaiters(s.events, wait.fd, wait.event, Ev.FiberWaiter(f), refused, fd, e);
  }

  lemma CallTakesNone(s: State, w: nat, f: nat, wait: Wait, phase: Phase, op: BodyOp, fd: nat, e: Ev.Event)
    requires Ev.Agree(s.events) && w < |s.workers| && f < |s.fibers| && CallNext(s, w, f, wait, phase, op).Some?
    requires Ev.WaiterAt(s.events, fd, e).Some?
    ensures Ev.WaiterAt(CallNext(s, w, f, wait, phase, op).value.events, fd, e) == Ev.WaiterAt(s.events, fd, e)
  {
    hide Ev.Agree, RegisterNext, Tm.Add, Tm.Cancel, TryCode, CheckCode, Ev.WaiterAt;
    if phase.Registering? {
      RegisterTakesNone(s, f, wait, op.refused, op.code, fd, e);
    }
  }

  lemma ExecTakes(s: State, w: nat, op: BodyOp, fd: nat, e: Ev.Event)
    requires Inv(s) && w < |s.workers| && ExecNext(s, w, op).Some? && KeepsWaiters(s, Exec(w, op))
    requires Ev.WaiterAt(s.events, fd, e).Some?
    ensures Outcome(s, Exec(w, op), ExecNext(s, w, op).value, fd, e)
  {
    hide Inv, Control, TokensOk, Waits, Ev.Agree, BodyNext, CallNext, Ev.CancelEvent, Ev.WaiterAt, Queued, KeepsWaiters;
    PartsOf(s);
    var f := s.workers[w].pc.fiber;
    match s.fibers[f].code {
      case Body => BodyTakes(s, w, f, op, fd, e);
      case Cancelling(_, fd', e') => CancelTakes(s, fd, e, fd', e', op.refused);
      case InCall(wait, phase) => CallTakesNone(s, w, f, wait, phase, op, fd, e);
      case _ =>
    }
  }

  lemma StepTakes(s: State, w: nat, op: WorkerOp, fd: nat, e: Ev.Event)
    requires Inv(s) && w < |s.workers| && StepNext(s, w, op).Some? && FreshReports(s, Step(w, op))
    requires Ev.WaiterAt(s.events, fd, e).Some?
    ensures Outcome(s, Step(w, op), StepNext(s, w, op).value, fd, e)
  {
    hide Inv, FreshReports, Ev.WaiterAt, Control, TokensOk, Waits, Ev.Agree;
    PartsOf(s);
    if op.Dispatch? {
      DispatchTakes(s, w, op.refused, fd, e);
    } else {
      hide StepNext;
      if op.Resume? {
        ResumeKeepsTable(s, w);
      } else {
        EventsStay(s, w, op);
      }
    }
  }

  lemma ResumeKeepsTable(s: State, w: nat)
    requires w < |s.workers| && StepNext(s, w, Resume).Some?
    ensures StepNext(s, w, Resume).value.events == s.events
  {
  }

  /** For every admissible step from a state with the invariant, and so from every reachable one, and every fiber in the
      slot of a fd context: the step takes it out iff it is one of those above, and then it is in the queue. */
  lemma WaitEndsIff(s: State, a: Action, fd: nat, e: Ev.Event)
    requires Inv(s) && Next(s, a).Some? && Admissible(s, a) && Ev.WaiterAt(s.events, fd, e).Some?
    ensures Outcome(s, a, Next(s, a).value, fd, e)
  {
    hide Inv, StepNext, ExecNext, FreeDeadlines, FreshReports, Ev.WaiterAt, KeepsWaiters;
    match a {
      case Step(w, op) => StepTakes(s, w, op, fd, e);
      case Exec(w, op) => ExecTakes(s, w, op, fd, e);
      case _ =>
    }
  }
}
