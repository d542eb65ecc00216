// Concrete runs, built one action at a time.

module Witness {
  import opened Base
  import opened TaskQueue
  import opened Runtime
  import Ev = Events
  import Tm = Timers

  // ---------- states ----------

  const Top := Worker(Scan, false)
  const Done := Worker(Scan, true)
  const NewFiber := Fiber(Ready, None, Start, 0)
  const Sleeper := Fiber(Ready, None, Asleep, 0)
  const Helper := Fiber(Term, None, Over, 0)

  /** A worker whose idle fiber is alive, and one whose idle fiber has terminated. */
  function On(pc: Pc): Worker {
    Worker(pc, false)
  }

  function Late(pc: Pc): Worker {
    Worker(pc, true)
  }

  /** A fiber that worker w runs. */
  function Inside(w: nat, c: Code): Fiber {
    Fiber(Running, Some(w), c, 0)
  }

  function Timers(order: seq<Entry>, tickled: bool, previous: int, seen: Option<int>): TimerSet {
    Tm.TimerSet(order, map[], tickled, previous, seen)
  }

  /** The state at time 0 in which nothing has happened yet. */
  function Blank(workers: seq<Worker>, splitStop: bool): State {
    State(workers, [], 0, 0, false, Ev.EmptyTable(), Timers([], false, 0, None), 0, [], 0, {}, splitStop, false)
  }

  lemma InitialIsBlank(splitStop: bool)
    ensures Initial(1, 0, splitStop) == Blank([Top], splitStop)
    ensures Initial(2, 0, splitStop) == Blank([Top, Top], splitStop)
  {
    assert Initial(1, 0, splitStop).workers == [Top] && Initial(2, 0, splitStop).workers == [Top, Top];
  }

  // ---------- runs ----------

  /** Some run leads from s0 to s. */
  ghost predicate Reaches(s0: State, s: State) {
    exists actions: seq<Action> :: RunTo(s0, actions, s)
  }

  ghost predicate RunTo(s0: State, actions: seq<Action>, s: State) {
    Runs(s0, actions) && Final(s0, actions) == s
  }

  lemma Stay(s: State)
    ensures Reaches(s, s)
  {
    assert RunTo(s, [], s);
  }

  /** A run grows by one action at its end. */
  lemma {:induction false} Extend(s0: State, actions: seq<Action>, a: Action)
    requires Runs(s0, actions) && Next(Final(s0, actions), a).Some? && Admissible(Final(s0, actions), a)
    ensures RunTo(s0, actions + [a], Next(Final(s0, actions), a).value)
    decreases |actions|
  {
    if actions == [] {
      assert [a][1..] == [];
      assert Runs(s0, [a]);
    } else {
      var s1 := Next(s0, actions[0]).value;
      assert (actions + [a])[1..] == actions[1..] + [a];
      Extend(s1, actions[1..], a);
    }
  }

  /** The actions of a run from the initial state of one or two workers. */
  lemma TakeRun(n: nat, splitStop: bool, s: State) returns (actions: seq<Action>)
    requires n == 1 || n == 2
    requires Reaches(Blank(if n == 1 then [Top] else [Top, Top], splitStop), s)
    ensures Runs(Initial(n, 0, splitStop), actions) && Final(Initial(n, 0, splitStop), actions) == s
  {
    InitialIsBlank(splitStop);
    hide Runs, Final, Initial, Blank;
    actions :| RunTo(Initial(n, 0, splitStop), actions, s);
  }

  /** Two states agree, component by component. */
  predicate SameParts(s: State, s': State) {
    && s.workers == s'.workers && s.queue == s'.queue && s.fibers == s'.fibers && s.fired == s'.fired
    && s.timers.order == s'.timers.order && s.timers.limbo == s'.timers.limbo
    && s.timers == s'.timers.(order := s.timers.order, limbo := s.timers.limbo)
    && s.events.contexts == s'.events.contexts && s.events.interest == s'.events.interest
    && s.events == s'.events.(contexts := s.events.contexts, interest := s.events.interest)
    && s == s'.(events := s.events, workers := s.workers, queue := s.queue, fibers := s.fibers, fired := s.fired,
         timers := s.timers)
  }

  /** The action leads from s to s', and a run has led to s. */
  lemma Go(s0: State, s: State, a: Action, s': State)
    requires Reaches(s0, s)
    requires Next(s, a).Some? && SameParts(Next(s, a).value, s') && Admissible(s, a)
    ensures Reaches(s0, s')
  {
    var actions: seq<Action> :| RunTo(s0, actions, s);
    Extend(s0, actions, a);
    assert RunTo(s0, actions + [a], s');
  }

  /** The scan of run(). */
  lemma GoTake(s0: State, s: State, w: nat, s': State)
    requires Reaches(s0, s) && !s.fault && w < |s.workers| && s.workers[w].pc.Scan? && SameParts(TakeNext(s, w), s')
    ensures Reaches(s0, s')
  {
    hide Reaches, SameParts, TakeNext;
    Go(s0, s, Step(w, Take), s');
  }

  /** A move inside idle(). */
  lemma GoIdle(s0: State, s: State, w: nat, op: WorkerOp, s': State)
    requires Reaches(s0, s) && !s.fault && w < |s.workers| && IdleMove(s, s.workers[w], op).Some?
    requires var m := IdleMove(s, s.workers[w], op).value;
             SameParts(s.(workers := s.workers[w := m.worker], timers := m.timers), s')
    ensures Reaches(s0, s')
  {
    assert !op.Take? && !op.Resume? && !op.Retire? && !op.Expire? && !op.Hand? && !op.Dispatch? && !op.LeaveIdle?;
    hide Reaches, SameParts, IdleMove;
    Go(s0, s, Step(w, op), s');
  }

  lemma GoStep(s0: State, s: State, w: nat, op: WorkerOp, s': State)
    requires Reaches(s0, s) && !s.fault && w < |s.workers| && StepNext(s, w, op).Some?
    requires SameParts(StepNext(s, w, op).value, s') && Admissible(s, Step(w, op))
    ensures Reaches(s0, s')
  {
    hide Reaches, SameParts, StepNext, Admissible;
    Go(s0, s, Step(w, op), s');
  }

  lemma GoExec(s0: State, s: State, w: nat, op: BodyOp, s': State)
    requires Reaches(s0, s) && !s.fault && w < |s.workers| && ExecNext(s, w, op).Some?
    requires SameParts(ExecNext(s, w, op).value, s') && Admissible(s, Exec(w, op))
    ensures Reaches(s0, s')
  {
    hide Reaches, SameParts, ExecNext, Admissible;
    Go(s0, s, Exec(w, op), s');
  }

  // ---------- what the steps of the runs compute ----------

  /** Fiber 0 registered for reading fd 5, and nothing else. */
  function Watched(): EventTable {
    var ctx := Ev.FdContext(Ev.Bits(true, false), Ev.Filled<nat, Callback>(Ev.FiberWaiter(0)), Ev.Cleared());
    Ev.Table(Ev.EmptyTable().contexts[5 := ctx], 1, map[5 := Ev.Bits(true, false)])
  }

  lemma RegisterRead()
    ensures |Ev.EmptyTable<nat, Callback>().contexts| == Ev.InitialSize
    ensures Ev.AddEvent(Ev.EmptyTable(), 5, Ev.Read, Ev.FiberWaiter(0), false) == Ev.Done(Watched(), [], true)
  {
    assert Ev.EmptyTable<nat, Callback>().contexts[5] == Ev.FreshContext<nat, Callback>();
  }

  /** A sweep that hands out the only timer there is. */
  lemma SweepOne(t: TimerSet, e: Entry, now: int)
    requires t.order == [e] && !e.recurring && e.next <= now && t.previous <= now
    ensures Tm.Sweep(t, now) == (t.(order := [], previous := now), [e]) && Tm.SweepEnds(t, now)
            && Tm.SweepsApart(t, now)
    ensures CallbacksOf([e]) == [e.cb] && CallsOf([e]) == if e.cb.TimeoutIo? then {e.cb.call} else {}
  {
    assert [e][1..] == [] && [e][..1] == [e];
    assert Tm.DuePrefix([e], now) == 1 + Tm.DuePrefix<nat, Callback>([], now);
    assert Tm.Rearm(t.(order := [], previous := now), [e], now) == Tm.Rearm(t.(order := [], previous := now), [], now);
    assert CallbacksOf([e]) == [e.cb] + CallbacksOf([]);
    assert e.cb.TimeoutIo? ==> [e][0].cb.call in CallsOf([e]);
  }

  lemma SweepNone(t: TimerSet, now: int)
    requires t.order == []
    ensures Tm.Sweep(t, now) == (t.(previous := now), []) && Tm.SweepEnds(t, now) && Tm.SweepsApart(t, now)
  {
    NothingDue(t.order, now);
    var rest := t.(order := [], previous := now);
    hide Tm.DuePrefix;
    assert Tm.Sweep(t, now).1 == [];
    assert t.order[0..] == [] && t.order[..0] == [];
    assert Tm.Rearm(rest, [], now) == rest;
  }

  lemma ExpireNone(s: State, w: nat, reports: seq<Ev.Report>)
    requires w < |s.workers| && s.timers.order == []
    ensures ExpireNext(s, w, reports) == Goto(s, w, Carrying([], reports)).(timers := s.timers.(previous := s.now))
  {
    hide Tm.Sweep, Tm.SweepEnds, Tm.SweepsApart, CallsOf, CallbacksOf;
    SweepNone(s.timers, s.now);
    NothingCalled(Tm.Sweep(s.timers, s.now).1);
    assert s.fired + CallsOf(Tm.Sweep(s.timers, s.now).1) == s.fired;
  }

  lemma NothingCalled(es: seq<Entry>)
    requires es == []
    ensures CallbacksOf(es) == [] && CallsOf(es) == {}
  {
  }

  lemma NothingDue(es: seq<Entry>, now: int)
    requires es == []
    ensures Tm.DuePrefix(es, now) == 0
  {
  }
}
