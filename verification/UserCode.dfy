// What user code asks for is what it gets: each operation of a fiber's body, seen in what it is recorded in.

module UserCode {
  import opened Base
  import opened TaskQueue
  import opened Runtime
  import opened Invariants
  import opened WorkerTimeouts
  import Ev = Events
  import Tm = Timers

  /** The handle a new timer gets leads to no other. */
  lemma HandleIsNew(s: State)
    requires Waits(s)
    ensures Tm.Valid(s.timers) && Tm.Live(s.timers, s.nextTimer).None?
  {
    if Tm.Live(s.timers, s.nextTimer).Some? {
      Tm.LiveMeans(s.timers, s.nextTimer, Tm.Live(s.timers, s.nextTimer).value);
    }
  }

  /** addTimer makes one timer, due a period from now with the period and callback given. */
  lemma NewTimerIs(s: State, w: nat, f: nat, ms: nat, recurring: bool, id: nat, k: nat)
    requires Waits(s) && w < |s.workers| && f < |s.fibers|
    ensures var s' := BodyNext(s, w, f, SetTimer(ms, recurring, id)).value;
            && s' == s.(timers := s'.timers, nextTimer := s.nextTimer + 1)
            && Tm.Live(s'.timers, k)
               == if k == s.nextTimer then Some(Tm.Entry(k, s.now + ms, ms, recurring, UserCb(id)))
                  else Tm.Live(s.timers, k)
  {
    hide Waits, Tm.Valid, Tm.Live, Tm.Add;
    HandleIsNew(s);
    Tm.AddLive(s.timers, Tm.Entry(s.nextTimer, s.now + ms, ms, recurring, UserCb(id)), k);
  }

  /** sleep arms a one-shot timer of its length that will schedule the sleeper, behind what is queued then and for any
      thread, and nothing else. */
  lemma SleepIs(s: State, w: nat, f: nat, ms: nat, k: nat)
    requires Waits(s) && w < |s.workers| && f < |s.fibers|
    ensures var s' := BodyNext(s, w, f, Sleep(ms)).value;
            && s'.fibers == s.fibers[f := s.fibers[f].(code := Asleep)]
            && s' == s.(timers := s'.timers, nextTimer := s.nextTimer + 1, fibers := s'.fibers)
            && Tm.Live(s'.timers, k)
               == if k == s.nextTimer then Some(Tm.Entry(k, s.now + ms, ms, false, WakeFiber(f)))
                  else Tm.Live(s.timers, k)
    ensures forall g :: CallBackNext(s, f, WakeFiber(g)).queue == s.queue + [Task(FiberWork(g), -1)]
  {
    hide Waits, Tm.Valid, Tm.Live, Tm.Add;
    HandleIsNew(s);
    Tm.AddLive(s.timers, Tm.Entry(s.nextTimer, s.now + ms, ms, false, WakeFiber(f)), k);
  }

  /** cancel takes the callback of one timer away. */
  lemma DroppedTimerIs(s: State, w: nat, f: nat, c: nat, k: nat)
    requires Waits(s) && w < |s.workers| && f < |s.fibers| && BodyNext(s, w, f, DropTimer(c)).Some?
    ensures var s' := BodyNext(s, w, f, DropTimer(c)).value;
            && s' == s.(timers := s'.timers)
            && Tm.Live(s'.timers, k) == if k == c then None else Tm.Live(s.timers, k)
  {
    hide Waits, Tm.Valid, Tm.Live, Tm.Cancel;
    HandleIsNew(s);
    Tm.CancelLive(s.timers, c, k);
  }

  /** refresh moves the deadline of one timer to a period from now. */
  lemma RefreshedTimerIs(s: State, w: nat, f: nat, c: nat, k: nat)
    requires Waits(s) && w < |s.workers| && f < |s.fibers| && BodyNext(s, w, f, RefreshTimer(c)).Some?
    ensures var s' := BodyNext(s, w, f, RefreshTimer(c)).value;
            var before := Tm.Live(s.timers, k);
            && s' == s.(timers := s'.timers)
            && Tm.Live(s'.timers, k)
               == if k == c && before.Some? then Some(before.value.(next := s.now + before.value.ms)) else before
  {
    hide Waits, Tm.Valid, Tm.Live, Tm.Refresh, UserHandle;
    HandleIsNew(s);
    NoneOutside(s);
    Tm.RefreshLive(s.timers, c, s.now, k);
    InsideMoves(s.timers, c, 0, true, s.now);
  }

  /** reset gives one timer a new period, from now or from where its old one started. */
  lemma ResetTimerIs(s: State, w: nat, f: nat, c: nat, ms: nat, fromNow: bool, k: nat)
    requires Waits(s) && w < |s.workers| && f < |s.fibers| && BodyNext(s, w, f, ResetTimer(c, ms, fromNow)).Some?
    ensures var s' := BodyNext(s, w, f, ResetTimer(c, ms, fromNow)).value;
            var before := Tm.Live(s.timers, k);
            && s' == s.(timers := s'.timers)
            && Tm.Live(s'.timers, k)
               == if k != c || before.None? || (ms == before.value.ms && !fromNow) then before
                  else
                    var start := if fromNow then s.now else before.value.next - before.value.ms;
                    Some(before.value.(next := start + ms, ms := ms))
  {
    hide Waits, Tm.Valid, Tm.Live, Tm.Reset, UserHandle;
    HandleIsNew(s);
    NoneOutside(s);
    Tm.ResetLive(s.timers, c, ms, fromNow, s.now, k);
    InsideMoves(s.timers, c, ms, fromNow, s.now);
  }

  lemma NoneOutside(s: State)
    requires Waits(s)
    ensures s.timers.limbo == map[]
  {
  }

  /** With no timer outside the set, refresh and reset find theirs. */
  lemma InsideMoves(t: TimerSet, c: nat, ms: nat, fromNow: bool, now: int)
    requires Tm.Valid(t) && t.limbo == map[]
    ensures Tm.Refresh(t, c, now).1 <==> Tm.Live(t, c).Some?
    ensures Tm.Reset(t, c, ms, fromNow, now).1 <==> Tm.Live(t, c).Some?
  {
    if Tm.Live(t, c).Some? {
      Tm.FindIsTheTimer(t, c);
    }
  }

  /** addEvent registers the callback iff the event was free and the kernel accepts it, and schedules nothing. */
  lemma WatchedIs(s: State, w: nat, f: nat, fd: nat, e: Ev.Event, id: nat, refused: bool)
    requires Waits(s) && w < |s.workers| && f < |s.fibers| && BodyNext(s, w, f, Watch(fd, e, id, refused)).Some?
    ensures var s' := BodyNext(s, w, f, Watch(fd, e, id, refused)).value;
            && s' == s.(events := s'.events)
            && Ev.Registered(s'.events, fd, e) == (Ev.Registered(s.events, fd, e) || !refused)
            && (!Ev.Registered(s.events, fd, e) && !refused ==>
                  s'.events.contexts[fd].Slot(e).Target() == [Ev.CbWaiter(UserCb(id))])
  {
    hide Waits, Ev.Agree, Ev.AddEvent, Ev.EnsureContext, WithEvents;
    EventsAgreeIn(s);
    NothingWoken(s, Ev.AddEvent(s.events, fd, e, Ev.CbWaiter(UserCb(id)), refused));
    Ev.AddEventKeeps(s.events, fd, e, Ev.CbWaiter(UserCb(id)), refused, NotUser());
    Grows(s.events, fd, e);
  }

  lemma NothingWoken(s: State, r: Ev.Result<nat, Callback>)
    ensures r.Done? && r.woken == [] ==> WithEvents(s, r) == s.(events := r.table)
  {
    assert s.queue + [] == s.queue;
  }

  lemma EventsAgreeIn(s: State)
    requires Waits(s)
    ensures Ev.Agree(s.events)
  {
  }

  /** delEvent takes the registration back, unless the kernel refuses, and schedules nothing. */
  lemma UnwatchedIs(s: State, w: nat, f: nat, fd: nat, e: Ev.Event, refused: bool)
    requires Waits(s) && w < |s.workers| && f < |s.fibers|
    ensures var s' := BodyNext(s, w, f, Unwatch(fd, e, refused)).value;
            && s' == s.(events := s'.events)
            && Ev.Registered(s'.events, fd, e) == (Ev.Registered(s.events, fd, e) && refused)
  {
    hide Waits, Ev.Agree, Ev.DelEvent, WithEvents, Ev.Weight, Sum;
    EventsAgreeIn(s);
    NothingWoken(s, Ev.DelEvent(s.events, fd, e, refused));
    Ev.DelEventKeeps(s.events, fd, e, refused, NotUser());
  }

  lemma Grows(t: EventTable, fd: nat, e: Ev.Event)
    requires Ev.Agree(t)
    ensures Ev.Registered(Ev.EnsureContext(t, fd), fd, e) <==> Ev.Registered(t, fd, e)
    ensures fd < |Ev.EnsureContext(t, fd).contexts|
  {
    Ev.EnsureContextKeeps(t, fd, NotUser());
  }

  /** What is scheduled comes last for the workers it is meant for, and the others do not see it. */
  lemma ScheduledIsLast(s: State, w: nat, f: nat, op: BodyOp, v: int)
    requires w < |s.workers| && f < |s.fibers| && (op.Schedule? || op.Spawn?)
    ensures var s' := BodyNext(s, w, f, op).value;
            var task := Task(if op.Schedule? then CbWork(UserCb(op.id)) else FiberWork(|s.fibers|), op.thread);
            && EligibleFor(s'.queue, v)
               == EligibleFor(s.queue, v) + (if op.thread == -1 || op.thread == v then [task] else [])
            && s'.fibers[..|s.fibers|] == s.fibers
            && (op.Spawn? ==> |s'.fibers| == |s.fibers| + 1 && s'.fibers[|s.fibers|].code.Start?)
  {
    var task := Task(if op.Schedule? then CbWork(UserCb(op.id)) else FiberWork(|s.fibers|), op.thread);
    ScheduleIsLast(s.queue, task, v);
  }

  /** The same from outside the workers. */
  lemma ScheduledFromOutside(s: State, spawn: bool, id: nat, thread: int, v: int)
    requires !s.fault && !s.stopping
    ensures var s' := Next(s, External(spawn, id, thread));
            && s'.Some?
            && EligibleFor(s'.value.queue, v) == EligibleFor(s.queue, v)
                 + (if thread == -1 || thread == v
                    then [Task(if spawn then FiberWork(|s.fibers|) else CbWork(UserCb(id)), thread)] else [])
  {
    ScheduleIsLast(s.queue, Task(if spawn then FiberWork(|s.fibers|) else CbWork(UserCb(id)), thread), v);
  }

  /** A user callback that a worker has popped runs user code in a fiber of its own, two steps later. */
  lemma CallbackRuns(s: State, w: nat, id: nat, thread: int)
    requires !s.fault && w < |s.workers| && s.workers[w].pc == Popped(Task(CbWork(UserCb(id)), thread))
    ensures var s1 := Next(s, Step(w, Resume));
            && s1.Some?
            && var s2 := Next(s1.value, Exec(w, CallBack));
            && s2.Some? && s2.value.workers[w].pc == Run(|s.fibers|) && |s2.value.fibers| == |s.fibers| + 1
            && s2.value.fibers[|s.fibers|].code == Body && s2.value.fibers[..|s.fibers|] == s.fibers
  {
  }

  /** A fiber that starts runs user code, and so does one whose sleep or call is over. */
  lemma FiberRuns(s: State, w: nat, f: nat, thread: int)
    requires !s.fault && w < |s.workers| && s.workers[w].pc == Popped(Task(FiberWork(f), thread))
    requires f < |s.fibers| && s.fibers[f].holder.None? && s.fibers[f].state.Ready?
    ensures var s1 := Next(s, Step(w, Resume));
            && s1.Some? && s1.value.workers[w].pc == Run(f)
            && (s.fibers[f].code.Start? || s.fibers[f].code.Asleep? ==> s1.value.fibers[f].code == Body)
            && (s.fibers[f].code.InCall? ==> s1.value.fibers[f].code == InCall(s.fibers[f].code.wait, Resumed))
  {
  }

  /** resume asserts that the fiber is READY, once it is popped, unlocked and has not ended. */
  lemma ResumeAsserts(s: State, w: nat, f: nat, thread: int)
    requires !s.fault && w < |s.workers| && f < |s.fibers| && s.fibers[f].holder.None?
    requires s.workers[w].pc == Popped(Task(FiberWork(f), thread))
    ensures var s' := Next(s, Step(w, Resume)); s'.Some? && (s'.value.fault <==> s.fibers[f].state.Running?)
  {
  }

  /** An addEvent that registers a fiber asserts that it is RUNNING. */
  lemma RegisterAsserts(s: State, f: nat, wait: Wait, refused: bool, code: int)
    requires Waits(s) && !s.fault && f < |s.fibers| && |s.events.contexts| >= Ev.InitialSize
    ensures var s' := RegisterNext(s, f, wait, refused, code);
            s'.fault <==> !Ev.Registered(s.events, wait.fd, wait.event) && !refused && !s.fibers[f].state.Running?
  {
    hide Waits, Ev.Agree, Ev.AddEvent, Ev.EnsureContext;
    EventsAgreeIn(s);
    Ev.AddEventKeeps(s.events, wait.fd, wait.event, Ev.FiberWaiter(f), refused, NotUser());
    Grows(s.events, wait.fd, wait.event);
  }

  /** A call begins with the arguments it is given, now, without a mark or a timer. */
  lemma CallBegins(s: State, w: nat, f: nat, kind: Kind, fd: nat, e: Ev.Event, timeout: Option<nat>)
    requires w < |s.workers| && f < |s.fibers|
    ensures var x := BodyNext(s, w, f, Enter(kind, fd, e, timeout)).value.fibers[f];
            && x.code.InCall? && x.code.phase == Trying && x.calls == s.fibers[f].calls + 1
            && x.code.wait == Wait(Call(f, s.fibers[f].calls), kind, fd, e, timeout, s.now, false, None)
  {
  }

  /** A call that returns gives the worker back to user code, which goes on from there. */
  lemma CallHandsBack(s: State, w: nat, f: nat)
    requires !s.fault && w < |s.workers| && f < |s.fibers| && s.workers[w].pc == Run(f) && s.fibers[f].code.Exiting?
    ensures Next(s, Exec(w, Continue)) == Some(s.(fibers := s.fibers[f := s.fibers[f].(code := Body)]))
  {
  }

  /** The callbacks of the timers that are due at a sweep, or of all of them when the clock went back by more than an
      hour, in the order of their deadlines. */
  predicate DueCallbacks(t: TimerSet, now: int, cbs: seq<Callback>) {
    && |cbs| <= |t.order|
    && (forall i :: 0 <= i < |cbs| ==> cbs[i] == t.order[i].cb)
    && (forall i :: 0 <= i < |t.order| ==>
          (t.order[i].next <= now || t.previous - now > 3_600_000 <==> i < |cbs|))
  }

  /** A sweep leaves exactly these in the worker's hands, with the reports it had. */
  lemma ExpiredAreCarried(s: State, w: nat)
    requires !s.fault && Waits(s) && w < |s.workers| && s.workers[w].pc.Expiring?
    requires Tm.SweepEnds(s.timers, s.now)
    ensures var s' := Next(s, Step(w, Expire));
            && s'.Some? && s'.value.workers[w].pc.Carrying?
            && s'.value.workers[w].pc.reports == s.workers[w].pc.reports
            && DueCallbacks(s.timers, s.now, s'.value.workers[w].pc.cbs)
  {
    hide Waits, Tm.Valid, Tm.Sweep, Tm.SweepEnds, CallbacksOf, CallsOf, DueCallbacks;
    SortedIn(s);
    SweptCallbacks(s.timers, s.now);
  }

  lemma SortedIn(s: State)
    requires Waits(s)
    ensures Tm.Sorted(s.timers.order)
  {
  }

  lemma SweptCallbacks(t: TimerSet, now: int)
    requires Tm.Sorted(t.order)
    ensures DueCallbacks(t, now, CallbacksOf(Tm.Sweep(t, now).1))
  {
    hide Tm.Sweep, Tm.Sorted, CallbacksOf;
    Tm.SweepHandsOutIff(t, now);
    var handed := Tm.Sweep(t, now).1;
    CallbacksAt(handed);
    forall i | 0 <= i < |handed| ensures CallbacksOf(handed)[i] == t.order[i].cb {
      assert handed[i] == t.order[..|handed|][i];
    }
    forall i | 0 <= i < |t.order|
      ensures t.order[i].next <= now || t.previous - now > 3_600_000 <==> i < |CallbacksOf(handed)|
    {
    }
  }

  /** The dispatch of one report leaves the others in the worker's hands, and a callback that is handed over goes behind
      what is queued, for any thread. No report is looked at before the last callback is handed over, and the idle fiber
      gives control back with empty hands only. */
  lemma CarriedInOrder(s: State, w: nat, refused: bool)
    requires !s.fault && w < |s.workers| && s.workers[w].pc.Carrying?
    ensures var pc := s.workers[w].pc;
            && (pc.cbs != [] ==>
                  var s' := Next(s, Step(w, Hand));
                  && s'.Some? && s'.value.workers[w].pc == Carrying(pc.cbs[1..], pc.reports)
                  && s'.value.queue == s.queue + [Task(CbWork(pc.cbs[0]), -1)])
            && (pc.cbs == [] && pc.reports != [] && pc.reports[0].fd < |s.events.contexts| ==>
                  var s' := Next(s, Step(w, Dispatch(refused)));
                  s'.Some? && s'.value.workers[w].pc == Carrying([], pc.reports[1..]))
            && (pc.cbs != [] ==> Next(s, Step(w, Dispatch(refused))).None?)
            && (Next(s, Step(w, YieldIdle)).Some? <==> pc.cbs == [] && pc.reports == [])
  {
    hide Ev.Dispatch;
  }
}
