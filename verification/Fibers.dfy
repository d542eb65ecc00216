// Coroutine switching. A context is modelled by the fiber whose code goes on when it is loaded, so that a
// switch made from the wrong fiber shows: it stores one fiber's continuation in another one's context.

module Fibers {
  import opened Base

  datatype Status = Ready | Running | Term

  /** `saved` is m_ctx; `resumer` is a history variable: who resumed the fiber last, and on which thread. */
  datatype Fiber<F, T> = Fiber(status: Status, inScheduler: bool, saved: F, resumer: Option<(T, F)>)

  /** t_fiber, t_thread_fiber and t_scheduler_fiber of one thread; `flow` is the fiber whose code the
      thread is executing, None before the thread has a main fiber. */
  datatype Thread<F> = Thread(current: Option<F>, main: Option<F>, scheduler: Option<F>, flow: Option<F>)

  datatype World<F, T> = World(fibers: map<F, Fiber<F, T>>, threads: map<T, Thread<F>>)

  function NewThread<F>(): Thread<F> {
    Thread(None, None, None, None)
  }

  // ---------- the operations; None where an assertion fails or a null pointer is followed ----------

  /** Fiber::GetThis on a thread without a fiber: `main` is the object it creates. The constructor leaves
      m_runInScheduler unset, so `garbage` may be anything. */
  function GetThis<F(==), T(==)>(w: World<F, T>, th: T, main: F, garbage: bool): World<F, T>
    requires th in w.threads
  {
    if w.threads[th].current.Some? then w
    else World(w.fibers[main := Fiber(Running, garbage, main, None)],
               w.threads[th := Thread(Some(main), Some(main), Some(main), Some(main))])
  }

  function Create<F(==), T(==)>(w: World<F, T>, f: F, inScheduler: bool): World<F, T> {
    w.(fibers := w.fibers[f := Fiber(Ready, inScheduler, f, None)])
  }

  function SetScheduler<F(==), T(==)>(w: World<F, T>, th: T, f: F): World<F, T>
    requires th in w.threads
  {
    w.(threads := w.threads[th := w.threads[th].(scheduler := Some(f))])
  }

  function Reset<F(==), T(==)>(w: World<F, T>, f: F): Option<World<F, T>>
    requires f in w.fibers
  {
    if w.fibers[f].status != Term then None
    else Some(w.(fibers := w.fibers[f := w.fibers[f].(status := Ready, saved := f)]))
  }

  /** Where resume saves the context of its caller, and where yield goes: on the thread that executes it. */
  function Home<F(==), T(==)>(w: World<F, T>, th: T, f: F): Option<F>
    requires th in w.threads && f in w.fibers
  {
    if w.fibers[f].inScheduler then w.threads[th].scheduler else w.threads[th].main
  }

  /** swapcontext(save, load) on thread th. */
  function Swap<F(==), T(==)>(w: World<F, T>, th: T, save: F, load: F): World<F, T>
    requires th in w.threads && w.threads[th].flow.Some? && save in w.fibers && load in w.fibers
  {
    var fibers := w.fibers[save := w.fibers[save].(saved := w.threads[th].flow.value)];
    World(fibers, w.threads[th := w.threads[th].(flow := Some(fibers[load].saved))])
  }

  function SetThis<F(==), T(==)>(w: World<F, T>, th: T, f: F): World<F, T>
    requires th in w.threads
  {
    w.(threads := w.threads[th := w.threads[th].(current := Some(f))])
  }

  function SetStatus<F(==), T(==)>(w: World<F, T>, f: F, s: Status): World<F, T>
    requires f in w.fibers
  {
    w.(fibers := w.fibers[f := w.fibers[f].(status := s)])
  }

  function Resume<F(==), T(==)>(w: World<F, T>, th: T, f: F): Option<World<F, T>>
    requires th in w.threads && f in w.fibers
  {
    var home, flow := Home(w, th, f), w.threads[th].flow;
    if w.fibers[f].status != Ready || home.None? || home.value !in w.fibers || flow.None? then None
    else
      var fiber := w.fibers[f].(status := Running, resumer := Some((th, flow.value)));
      Some(Swap(SetThis(w.(fibers := w.fibers[f := fiber]), th, f), th, home.value, f))
  }

  function Yield<F(==), T(==)>(w: World<F, T>, th: T, f: F): Option<World<F, T>>
    requires th in w.threads && f in w.fibers
  {
    var home := Home(w, th, f);
    if w.fibers[f].status == Ready || home.None? || home.value !in w.fibers || w.threads[th].flow.None? then None
    else
      var w1 := if w.fibers[f].status == Term then w else SetStatus(w, f, Ready);
      Some(Swap(SetThis(w1, th, home.value), th, f, home.value))
  }

  /** The end of MainFunc of fiber f. */
  function Finish<F(==), T(==)>(w: World<F, T>, th: T, f: F): Option<World<F, T>>
    requires th in w.threads && f in w.fibers
  {
    Yield(SetStatus(w, f, Term), th, f)
  }

  // ---------- bracketing ----------

  /** The fibers that are running on a thread, each resumed by the one before it: the thread fiber, then
      the scheduler fiber where it is another one, then the current task. */
  ghost function Chain<F, T>(w: World<F, T>, th: T): seq<F>
    requires th in w.threads
  {
    var t := w.threads[th];
    if t.main.None? || t.current.None? || t.scheduler.None? || t.current.value !in w.fibers then []
    else if t.current == t.main then [t.main.value]
    else if w.fibers[t.current.value].inScheduler && t.scheduler != t.main then
      [t.main.value, t.scheduler.value, t.current.value]
    else [t.main.value, t.current.value]
  }

  /** One thread: t_fiber is the last of the chain and it is its code that runs; a scheduler fiber other than
      the thread fiber returns to the thread fiber; the chain is running and each was resumed by its
      predecessor on this thread. */
  ghost predicate ThreadOk<F, T>(w: World<F, T>, th: T)
    requires th in w.threads
  {
    var t, chain := w.threads[th], Chain(w, th);
    if t.current.None? then t == NewThread()
    else
      && t.main.Some? && t.scheduler.Some? && t.flow == t.current
      && t.main.value in w.fibers && t.scheduler.value in w.fibers && t.current.value in w.fibers
      && (t.scheduler != t.main ==> !w.fibers[t.scheduler.value].inScheduler)
      && (t.scheduler == t.current && t.current != t.main ==> !w.fibers[t.current.value].inScheduler)
      && (forall i :: 0 <= i < |chain| ==> w.fibers[chain[i]].status == Running)
      && (forall i :: 0 < i < |chain| ==> w.fibers[chain[i]].resumer == Some((th, chain[i - 1])))
      && w.fibers[t.main.value].resumer == None
  }

  ghost predicate OnThread<F, T>(w: World<F, T>, th: T, f: F) {
    th in w.threads && f in Chain(w, th)
  }

  /** The running fibers are shared out among the threads. */
  ghost predicate Shared<F, T>(w: World<F, T>) {
    && (forall f :: f in w.fibers && w.fibers[f].status == Running
         ==> exists th :: th in w.threads && OnThread(w, th, f))
    && (forall th1, th2, f ::
          th1 in w.threads && th2 in w.threads && f in w.fibers && OnThread(w, th1, f) && OnThread(w, th2, f)
          ==> th1 == th2)
  }

  /** Every context is its own fiber's continuation. */
  ghost predicate InPlace<F, T>(w: World<F, T>) {
    forall f :: f in w.fibers ==> w.fibers[f].saved == f
  }

  ghost predicate Bracketed<F, T>(w: World<F, T>) {
    InPlace(w) && (forall th :: th in w.threads ==> ThreadOk(w, th)) && Shared(w)
  }

  /** A fiber no thread is running can be taken by its lock; unless it has terminated it is READY. */
  lemma UnclaimedIsReady<F, T>(w: World<F, T>, f: F)
    requires Bracketed(w) && f in w.fibers
    requires forall th :: th in w.threads ==> f !in Chain(w, th)
    ensures w.fibers[f].status != Running
  {
    assert forall th :: th in w.threads ==> !OnThread(w, th, f);
  }

  // ---------- what each operation does to the chains ----------

  lemma Untouched<F, T>(w: World<F, T>, w': World<F, T>, t: T)
    requires t in w.threads && t in w'.threads && w'.threads[t] == w.threads[t] && ThreadOk(w, t)
    requires forall f :: f in w.fibers ==> f in w'.fibers && w'.fibers[f].inScheduler == w.fibers[f].inScheduler
    requires forall f :: f in Chain(w, t) ==> f in w'.fibers && w'.fibers[f] == w.fibers[f]
    ensures Chain(w', t) == Chain(w, t) && ThreadOk(w', t)
  {
  }

  /** One thread's chain changes, and with it which fibers run. */
  lemma StillShared<F, T>(w: World<F, T>, w': World<F, T>, th: T)
    requires Shared(w) && th in w.threads && w'.threads.Keys == w.threads.Keys
    requires forall t :: t in w.threads && t != th ==> Chain(w', t) == Chain(w, t)
    requires forall f :: f in w'.fibers && w'.fibers[f].status == Running ==>
               f in Chain(w', th) || (f in w.fibers && w.fibers[f].status == Running && f !in Chain(w, th))
    requires forall f, t :: f in Chain(w', th) && t in w.threads && t != th ==> f !in Chain(w, t)
    requires forall f, t :: f in w'.fibers && t in w.threads && t != th && f in Chain(w, t) ==> f in w.fibers
    ensures Shared(w')
  {
    forall f | f in w'.fibers && w'.fibers[f].status == Running
      ensures exists t :: t in w'.threads && OnThread(w', t, f) {
      if f in Chain(w', th) {
        assert OnThread(w', th, f);
      } else {
        var t :| t in w.threads && OnThread(w, t, f);
        assert OnThread(w', t, f);
      }
    }
    forall t1, t2, f | t1 in w'.threads && t2 in w'.threads && f in w'.fibers && OnThread(w', t1, f)
        && OnThread(w', t2, f)
      ensures t1 == t2
    {
      if t1 != th && t2 != th {
        assert OnThread(w, t1, f) && OnThread(w, t2, f);
      }
    }
  }

  /** resume keeps the bracketing exactly when the fiber that calls it is the one whose context it saves
      into: the scheduler fiber for a task, the thread fiber for the scheduler fiber itself. */
  lemma ResumeBrackets<F, T>(w: World<F, T>, th: T, f: F)
    requires Bracketed(w) && th in w.threads && f in w.fibers && Resume(w, th, f).Some?
    requires w.fibers[f].inScheduler ==> w.threads[th].scheduler != Some(f)
    ensures Bracketed(Resume(w, th, f).value) <==> w.threads[th].current == Home(w, th, f)
    ensures w.threads[th].current == Home(w, th, f) ==> Chain(Resume(w, th, f).value, th) == Chain(w, th) + [f]
  {
    var w', home := Resume(w, th, f).value, Home(w, th, f).value;
    assert ThreadOk(w, th);
    if w.threads[th].current == Some(home) {
      ResumeKeeps(w, th, f);
    } else {
      assert w'.fibers[home].saved != home;
    }
  }

  lemma ResumeKeeps<F, T>(w: World<F, T>, th: T, f: F)
    requires Bracketed(w) && th in w.threads && f in w.fibers && Resume(w, th, f).Some?
    requires w.fibers[f].inScheduler ==> w.threads[th].scheduler != Some(f)
    requires w.threads[th].current == Home(w, th, f)
    ensures Chain(Resume(w, th, f).value, th) == Chain(w, th) + [f] && Bracketed(Resume(w, th, f).value)
  {
    var w' := Resume(w, th, f).value;
    ResumeThread(w, th, f);
    RunningIsChained(w);
    hide Resume, Chain, ThreadOk;
    forall t | t in w.threads && t != th ensures Chain(w', t) == Chain(w, t) && ThreadOk(w', t) {
      assert f !in Chain(w, t);
      Untouched(w, w', t);
    }
    forall g, t | g in Chain(w', th) && t in w.threads && t != th ensures g !in Chain(w, t) {
      assert g in Chain(w, th) || g == f;
    }
    StillShared(w, w', th);
  }

  lemma RunningIsChained<F, T>(w: World<F, T>)
    requires Bracketed(w)
    ensures forall th, f :: th in w.threads && f in Chain(w, th) ==> f in w.fibers && w.fibers[f].status == Running
    ensures forall th, t, f :: th in w.threads && t in w.threads && f in Chain(w, th) && f in Chain(w, t) ==> th == t
  {
    assert forall th, f :: th in w.threads && f in Chain(w, th) ==> OnThread(w, th, f);
    forall th, f | th in w.threads && f in Chain(w, th) ensures f in w.fibers && w.fibers[f].status == Running {
      assert ThreadOk(w, th);
    }
  }

  /** What the other threads see of it: one fiber starts to run. */
  lemma ResumeThread<F, T>(w: World<F, T>, th: T, f: F)
    requires InPlace(w) && th in w.threads && ThreadOk(w, th) && f in w.fibers && Resume(w, th, f).Some?
    requires w.fibers[f].inScheduler ==> w.threads[th].scheduler != Some(f)
    requires w.threads[th].current == Home(w, th, f)
    ensures var w' := Resume(w, th, f).value;
            && InPlace(w') && ThreadOk(w', th) && Chain(w', th) == Chain(w, th) + [f]
            && w'.fibers.Keys == w.fibers.Keys && w'.threads.Keys == w.threads.Keys
            && (forall t :: t in w.threads && t != th ==> w'.threads[t] == w.threads[t])
            && w.fibers[f].status == Ready && w'.fibers[f].inScheduler == w.fibers[f].inScheduler
            && (forall g :: g in w.fibers && g != f ==> w'.fibers[g] == w.fibers[g])
  {
    assert f !in Chain(w, th);
  }

  // ---------- yield and the end of MainFunc ----------

  /** Fiber f, the last of its thread's chain, hands control back and is left in status s. */
  ghost function Leave<F, T>(w: World<F, T>, th: T, f: F, s: Status): World<F, T>
    requires th in w.threads && f in w.fibers && Home(w, th, f).Some?
  {
    var home := Home(w, th, f);
    World(w.fibers[f := w.fibers[f].(status := s)], w.threads[th := w.threads[th].(current := home, flow := home)])
  }

  lemma YieldLeaves<F, T>(w: World<F, T>, th: T, f: F)
    requires InPlace(w) && th in w.threads && ThreadOk(w, th) && f in w.fibers
    requires w.threads[th].current == Some(f) && w.threads[th].main != Some(f)
    ensures Home(w, th, f).Some? && w.fibers[f].resumer == Some((th, Home(w, th, f).value))
    ensures Yield(w, th, f) == Some(Leave(w, th, f, Ready)) && Finish(w, th, f) == Some(Leave(w, th, f, Term))
  {
    assert f in Chain(w, th);
    var home := Home(w, th, f).value;
    assert home in Chain(w, th) && home != f;
    YieldSwaps(w, th, f, home);
    YieldSwaps(SetStatus(w, f, Term), th, f, home);
    assert SetStatus(w, f, Term).fibers[f := w.fibers[f].(status := Term)]
        == w.fibers[f := w.fibers[f].(status := Term)];
  }

  /** swapcontext back: what was saved in f is f, and what runs on is home. */
  lemma YieldSwaps<F, T>(w: World<F, T>, th: T, f: F, home: F)
    requires InPlace(w) && th in w.threads && f in w.fibers && home in w.fibers && home != f
    requires w.fibers[f].status != Ready && w.threads[th].flow == Some(f) && Home(w, th, f) == Some(home)
    ensures Yield(w, th, f) == Some(Leave(w, th, f, if w.fibers[f].status == Term then Term else Ready))
  {
    var w' := Yield(w, th, f).value;
    var s := if w.fibers[f].status == Term then Term else Ready;
    assert w'.fibers == w.fibers[f := w.fibers[f].(status := s)];
    assert w'.threads == Leave(w, th, f, s).threads;
  }

  /** Handing control back takes the fiber off the end of the chain and keeps everything in order. */
  lemma LeaveKeeps<F, T>(w: World<F, T>, th: T, f: F, s: Status)
    requires Bracketed(w) && th in w.threads && f in w.fibers && s != Running
    requires w.threads[th].current == Some(f) && w.threads[th].main != Some(f)
    ensures Home(w, th, f).Some?
    ensures var w' := Leave(w, th, f, s); Bracketed(w') && Chain(w, th) == Chain(w', th) + [f]
  {
    assert ThreadOk(w, th);
    var w' := Leave(w, th, f, s);
    LeaveThread(w, th, f, s);
    RunningIsChained(w);
    hide Leave, Chain, ThreadOk;
    forall t | t in w.threads && t != th ensures Chain(w', t) == Chain(w, t) && ThreadOk(w', t) {
      assert f !in Chain(w, t);
      Untouched(w, w', t);
    }
    forall g, t | g in Chain(w', th) && t in w.threads && t != th ensures g !in Chain(w, t) {
      assert g in Chain(w', th) + [f];
    }
    StillShared(w, w', th);
  }

  lemma LeaveThread<F, T>(w: World<F, T>, th: T, f: F, s: Status)
    requires InPlace(w) && th in w.threads && ThreadOk(w, th) && f in w.fibers && s != Running
    requires w.threads[th].current == Some(f) && w.threads[th].main != Some(f)
    ensures Home(w, th, f).Some?
    ensures var w' := Leave(w, th, f, s);
            && InPlace(w') && ThreadOk(w', th) && Chain(w, th) == Chain(w', th) + [f]
            && w'.fibers.Keys == w.fibers.Keys && w'.threads.Keys == w.threads.Keys
            && (forall t :: t in w.threads && t != th ==> w'.threads[t] == w.threads[t])
            && w'.fibers[f].status == s && w'.fibers[f].inScheduler == w.fibers[f].inScheduler && f in Chain(w, th)
            && (forall g :: g in w.fibers && g != f ==> w'.fibers[g] == w.fibers[g])
  {
    var before, after := Chain(w, th), Chain(Leave(w, th, f, s), th);
    assert before == after + [f];
    assert forall i :: 0 <= i < |after| ==> after[i] == before[i] && after[i] != f;
  }

  /** yield of a fiber that does not run, or of the thread fiber, leaves a context or a state behind that is wrong. */
  lemma YieldBreaks<F, T>(w: World<F, T>, th: T, f: F)
    requires InPlace(w) && th in w.threads && ThreadOk(w, th) && f in w.fibers && Yield(w, th, f).Some?
    requires w.threads[th].current != Some(f) || w.threads[th].main == Some(f)
    ensures var w' := Yield(w, th, f).value; InPlace(w') ==> th in w'.threads && !ThreadOk(w', th)
  {
    var w', home := Yield(w, th, f).value, Home(w, th, f).value;
    if w.threads[th].current == Some(f) {
      assert f in Chain(w, th) && w'.fibers[f].status == Ready && w'.threads[th].main == Some(f);
      if w'.threads[th].current.value in w'.fibers {
        assert Chain(w', th)[0] == f;
      }
    } else {
      assert w'.fibers[f].saved == w.threads[th].current.value;
    }
  }

  /** yield keeps the bracketing exactly when the fiber it is called on is the one that runs and not the
      thread fiber; control then goes to the fiber that resumed it last, on the thread that executes the
      yield, wherever the fiber ran before. */
  lemma YieldBrackets<F, T>(w: World<F, T>, th: T, f: F)
    requires Bracketed(w) && th in w.threads && f in w.fibers && Yield(w, th, f).Some?
    ensures Bracketed(Yield(w, th, f).value) <==> w.threads[th].current == Some(f) && w.threads[th].main != Some(f)
    ensures w.threads[th].current == Some(f) && w.threads[th].main != Some(f) ==>
              var w' := Yield(w, th, f).value;
              && Chain(w, th) == Chain(w', th) + [f]
              && w'.threads[th].flow.Some? && w.fibers[f].resumer == Some((th, w'.threads[th].flow.value))
  {
    var w' := Yield(w, th, f).value;
    assert ThreadOk(w, th);
    hide Yield, Leave, Chain, ThreadOk;
    if w.threads[th].current == Some(f) && w.threads[th].main != Some(f) {
      YieldLeaves(w, th, f);
      LeaveKeeps(w, th, f, Ready);
    } else {
      YieldBreaks(w, th, f);
    }
  }

  // ---------- the calls the runtime makes ----------

  datatype Call<F, T> =
    | Attach(th: T, main: F, garbage: bool)   // Fiber::GetThis at the start of run and of the constructor
    | New(f: F, inScheduler: bool)
    | UseCaller(th: T, f: F)                  // the constructor makes a scheduler fiber for its own thread
    | StopResumes(th: T)                      // stop resumes that scheduler fiber
    | RunResumes(th: T, f: F)                 // run resumes a task or its idle fiber
    | Yields(th: T)                           // Fiber::GetThis()->yield()
    | Finishes(th: T)                         // MainFunc ends
    | Resets(f: F)

  /** No thread is in the middle of running f: its lock can be taken. */
  ghost predicate Unclaimed<F, T>(w: World<F, T>, f: F) {
    f in w.fibers && w.fibers[f].status != Term && forall th :: th in w.threads ==> f !in Chain(w, th)
  }

  ghost predicate Executes<F, T>(w: World<F, T>, th: T) {
    th in w.threads && w.threads[th].flow.Some? && w.threads[th].flow.value in w.fibers
  }

  /** Whose code makes each call, and on what. */
  ghost predicate Permitted<F, T>(w: World<F, T>, c: Call<F, T>) {
    match c
    case Attach(th, main, _) => th in w.threads && main !in w.fibers
    case New(f, _) => f !in w.fibers
    case UseCaller(th, f) => Executes(w, th) && w.threads[th].flow == w.threads[th].main && f !in w.fibers
    case StopResumes(th) =>
      && Executes(w, th) && w.threads[th].flow == w.threads[th].main && w.threads[th].scheduler.Some?
      && Unclaimed(w, w.threads[th].scheduler.value)
    case RunResumes(th, f) =>
      && Executes(w, th) && w.threads[th].flow == w.threads[th].scheduler
      && Unclaimed(w, f) && w.fibers[f].inScheduler
    case Yields(th) => Executes(w, th) && w.threads[th].flow != w.threads[th].main
    case Finishes(th) => Executes(w, th) && w.threads[th].flow != w.threads[th].main
    case Resets(f) => f in w.fibers && w.fibers[f].status == Term
  }

  /** The call; None when one of its assertions fails. */
  ghost function Step<F, T>(w: World<F, T>, c: Call<F, T>): Option<World<F, T>>
    requires Permitted(w, c)
  {
    match c
    case Attach(th, main, garbage) => Some(GetThis(w, th, main, garbage))
    case New(f, inScheduler) => Some(Create(w, f, inScheduler))
    case UseCaller(th, f) => Some(SetScheduler(Create(w, f, false), th, f))
    case StopResumes(th) => Resume(w, th, w.threads[th].scheduler.value)
    case RunResumes(th, f) => Resume(w, th, f)
    case Yields(th) =>
      var t := w.threads[th];
      if t.current.None? || t.current.value !in w.fibers then None else Yield(w, th, t.current.value)
    case Finishes(th) => Finish(w, th, w.threads[th].flow.value)
    case Resets(f) => Reset(w, f)
  }

  lemma CallKeeps<F, T>(w: World<F, T>, c: Call<F, T>)
    requires Bracketed(w) && Permitted(w, c)
    ensures Step(w, c).Some? && Bracketed(Step(w, c).value)
  {
    hide After, Shared;
    match c {
      case Attach(th, main, garbage) => AttachKeeps(w, th, main, garbage);
      case New(f, inScheduler) => CreateKeeps(w, f, inScheduler);
      case UseCaller(th, f) =>
        CreateKeeps(w, f, false);
        UseCallerKeeps(w, th, f);
      case StopResumes(th) =>
        assert ThreadOk(w, th);
        assert w.threads[th].main.value in Chain(w, th);
        UnclaimedIsReady(w, w.threads[th].scheduler.value);
        ResumeKeeps(w, th, w.threads[th].scheduler.value);
      case RunResumes(th, f) =>
        assert ThreadOk(w, th);
        assert w.threads[th].scheduler.value in Chain(w, th);
        UnclaimedIsReady(w, f);
        ResumeKeeps(w, th, f);
      case Yields(th) =>
        assert ThreadOk(w, th);
        YieldLeaves(w, th, w.threads[th].flow.value);
        LeaveKeeps(w, th, w.threads[th].flow.value, Ready);
      case Finishes(th) =>
        assert ThreadOk(w, th);
        YieldLeaves(w, th, w.threads[th].flow.value);
        LeaveKeeps(w, th, w.threads[th].flow.value, Term);
      case Resets(f) => ResetKeeps(w, f);
    }
  }

  lemma AttachKeeps<F, T>(w: World<F, T>, th: T, main: F, garbage: bool)
    requires Bracketed(w) && th in w.threads && main !in w.fibers
    ensures Bracketed(GetThis(w, th, main, garbage))
  {
    var w' := GetThis(w, th, main, garbage);
    assert ThreadOk(w, th);
    if w.threads[th].current.None? {
      RunningIsChained(w);
      forall t | t in w.threads && t != th ensures Chain(w', t) == Chain(w, t) && ThreadOk(w', t) {
        Untouched(w, w', t);
      }
      StillShared(w, w', th);
    }
  }

  lemma CreateKeeps<F, T>(w: World<F, T>, f: F, inScheduler: bool)
    requires Bracketed(w) && f !in w.fibers
    ensures Bracketed(Create(w, f, inScheduler))
  {
    var w' := Create(w, f, inScheduler);
    RunningIsChained(w);
    forall t | t in w.threads ensures Chain(w', t) == Chain(w, t) && ThreadOk(w', t) {
      Untouched(w, w', t);
    }
    if th :| th in w.threads {
      StillShared(w, w', th);
    }
  }

  lemma UseCallerKeeps<F, T>(w: World<F, T>, th: T, f: F)
    requires Bracketed(w) && th in w.threads && f !in w.fibers && Bracketed(Create(w, f, false))
    requires w.threads[th].main.Some? && w.threads[th].flow == w.threads[th].main
    ensures Bracketed(SetScheduler(Create(w, f, false), th, f))
  {
    hide OnThread, Shared;
    var w1 := Create(w, f, false);
    var w' := SetScheduler(w1, th, f);
    RunningIsChained(w1);
    assert ThreadOk(w1, th);
    forall t | t in w.threads && t != th ensures Chain(w', t) == Chain(w1, t) && ThreadOk(w', t) {
      Untouched(w1, w', t);
    }
    StillShared(w1, w', th);
  }

  lemma ResetKeeps<F, T>(w: World<F, T>, f: F)
    requires Bracketed(w) && f in w.fibers && w.fibers[f].status == Term
    ensures Reset(w, f).Some? && Bracketed(Reset(w, f).value)
  {
    var w' := Reset(w, f).value;
    RunningIsChained(w);
    forall t | t in w.threads ensures Chain(w', t) == Chain(w, t) && ThreadOk(w', t) {
      Untouched(w, w', t);
    }
    if th :| th in w.threads {
      StillShared(w, w', th);
    }
  }

  /** A run: each call is permitted where it is made. */
  ghost predicate Calls<F, T>(w: World<F, T>, run: seq<Call<F, T>>)
    decreases |run|
  {
    run == [] || (Permitted(w, run[0]) && (Step(w, run[0]).Some? ==> Calls(Step(w, run[0]).value, run[1..])))
  }

  /** Where a run leads; None when an assertion failed on the way. */
  ghost function After<F, T>(w: World<F, T>, run: seq<Call<F, T>>): Option<World<F, T>>
    requires Calls(w, run)
    decreases |run|
  {
    if run == [] then Some(w)
    else if Step(w, run[0]).None? then None
    else After(Step(w, run[0]).value, run[1..])
  }

  /** Over every run, on any number of threads, fibers moving between them at will: no assertion of
      resume, yield or reset fails, and the running fibers stay bracketed. */
  lemma {:induction false} EveryRunIsBracketed<F, T>(w: World<F, T>, run: seq<Call<F, T>>)
    requires Bracketed(w) && Calls(w, run)
    ensures After(w, run).Some? && Bracketed(After(w, run).value)
    decreases |run|
  {
    if run != [] {
      CallKeeps(w, run[0]);
      EveryRunIsBracketed(Step(w, run[0]).value, run[1..]);
    }
  }

  ghost function Start<F, T>(threads: set<T>): World<F, T> {
    World(map[], map th | th in threads :: NewThread())
  }

  lemma StartIsBracketed<F, T>(threads: set<T>)
    ensures Bracketed(Start<F, T>(threads))
  {
  }

  /** In every reachable state t_fiber is the fiber whose code the thread executes, so GetThis in
      MainFunc finds the fiber that is starting and GetThis()->yield() yields the caller itself; the yield
      goes to whoever resumed that fiber last, and that was on this thread. */
  lemma YieldReturnsToTheResumer<F, T>(threads: set<T>, run: seq<Call<F, T>>, th: T)
    requires Calls(Start<F, T>(threads), run) && After(Start<F, T>(threads), run).Some?
    requires var w := After(Start<F, T>(threads), run).value;
             Executes(w, th) && w.threads[th].flow != w.threads[th].main
    ensures var w := After(Start<F, T>(threads), run).value;
            var f := w.threads[th].flow.value;
            && w.threads[th].current == Some(f) && Yield(w, th, f).Some?
            && var w' := Yield(w, th, f).value;
               w'.threads[th].flow.Some? && w.fibers[f].resumer == Some((th, w'.threads[th].flow.value))
  {
    StartIsBracketed<F, T>(threads);
    EveryRunIsBracketed(Start<F, T>(threads), run);
    var w := After(Start<F, T>(threads), run).value;
    assert ThreadOk(w, th);
    YieldLeaves(w, th, w.threads[th].flow.value);
  }

  // ---------- what can be run, runs ----------

  /** A fresh task on a thread that executes its scheduler fiber: run may resume it, it executes then, and its yield or
      its end gives control back to the scheduler fiber and leaves it READY or TERM. */
  lemma NewTaskRuns<F, T>(w: World<F, T>, th: T, f: F)
    requires Bracketed(w) && Executes(w, th) && w.threads[th].flow == w.threads[th].scheduler && f !in w.fibers
    ensures Permitted(w, New(f, true)) && Step(w, New(f, true)).Some?
    ensures var w1 := Step(w, New(f, true)).value;
            && Permitted(w1, RunResumes(th, f)) && Step(w1, RunResumes(th, f)).Some?
            && var w2 := Step(w1, RunResumes(th, f)).value;
            && Bracketed(w2) && Executes(w2, th) && f in w2.fibers
            && w2.threads[th].flow == Some(f) == w2.threads[th].current
            && w2.fibers[f].status == Running
            && Permitted(w2, Yields(th)) && Step(w2, Yields(th)).Some?
            && Permitted(w2, Finishes(th)) && Step(w2, Finishes(th)).Some?
            && var w3, w4 := Step(w2, Yields(th)).value, Step(w2, Finishes(th)).value;
            && Executes(w3, th) && f in w3.fibers && Executes(w4, th) && f in w4.fibers
            && w3.threads[th].flow == w4.threads[th].flow == w.threads[th].flow
            && w3.fibers[f].status == Ready && w4.fibers[f].status == Term
  {
    var w1 := Create(w, f, true);
    CreateKeeps(w, f, true);
    NewIsUnclaimed(w, th, f, true);
    ResumedTask(w1, th, f);
    var w2 := Resume(w1, th, f).value;
    assert ThreadOk(w2, th);
    YieldLeaves(w2, th, f);
  }

  /** reset takes a fiber that has ended and no other; whatever context it held, it executes its own code at its next
      resume, on every thread where there is a fiber to come back to. */
  lemma ResetStartsAnew<F, T>(w: World<F, T>, th: T, f: F)
    requires th in w.threads && f in w.fibers && Home(w, th, f) != Some(f)
    ensures Reset(w, f).Some? <==> w.fibers[f].status == Term
    ensures w.fibers[f].status == Term ==>
      var w1 := Reset(w, f).value;
      && (Resume(w1, th, f).Some? <==>
            w.threads[th].flow.Some? && Home(w, th, f).Some? && Home(w, th, f).value in w.fibers)
      && (Resume(w1, th, f).Some? ==>
            var w2 := Resume(w1, th, f).value;
            w2.threads[th].flow == Some(f) == w2.threads[th].current && w2.fibers[f].status == Running)
      && (forall g | g in w.fibers && g != f :: w1.fibers[g] == w.fibers[g]) && w1.threads == w.threads
  {
  }

  lemma NewIsUnclaimed<F, T>(w: World<F, T>, th: T, f: F, inScheduler: bool)
    requires Bracketed(w) && Executes(w, th) && f !in w.fibers
    ensures var w1 := Create(w, f, inScheduler);
            && Unclaimed(w1, f) && w1.threads == w.threads && Executes(w1, th)
            && w1.fibers[f] == Fiber(Ready, inScheduler, f, None)
  {
    hide Bracketed, Unclaimed;
    CreateKeeps(w, f, inScheduler);
    ReadyIsUnclaimed(Create(w, f, inScheduler), f);
  }

  lemma ReadyIsUnclaimed<F, T>(w: World<F, T>, f: F)
    requires Bracketed(w) && f in w.fibers && w.fibers[f].status == Ready
    ensures Unclaimed(w, f)
  {
    forall t | t in w.threads ensures f !in Chain(w, t) {
      assert ThreadOk(w, t);
    }
  }

  lemma ResumedTask<F, T>(w: World<F, T>, th: T, f: F)
    requires Bracketed(w) && Executes(w, th) && w.threads[th].flow == w.threads[th].scheduler
    requires Unclaimed(w, f) && w.fibers[f] == Fiber(Ready, true, f, None)
    ensures Resume(w, th, f).Some? && Bracketed(Resume(w, th, f).value)
    ensures var w' := Resume(w, th, f).value;
            && th in w'.threads && f in w'.fibers && w'.fibers[f].inScheduler && w'.fibers[f].status == Running
            && w'.threads[th] == w.threads[th].(current := Some(f), flow := Some(f)) && w.threads[th].main != Some(f)
  {
    assert ThreadOk(w, th);
    assert w.threads[th].scheduler.value in Chain(w, th) && w.threads[th].main.value in Chain(w, th);
    ResumeKeeps(w, th, f);
  }

  /** The scheduler fiber that the constructor makes for its own thread: stop may resume it, and then the thread
      executes it as its scheduler, on which tasks run as above. */
  lemma CallerSchedulerRuns<F, T>(w: World<F, T>, th: T, f: F)
    requires Bracketed(w) && Executes(w, th) && w.threads[th].flow == w.threads[th].main && f !in w.fibers
    ensures Permitted(w, UseCaller(th, f)) && Step(w, UseCaller(th, f)).Some?
    ensures var w1 := Step(w, UseCaller(th, f)).value;
            && Permitted(w1, StopResumes(th)) && Step(w1, StopResumes(th)).Some?
            && var w2 := Step(w1, StopResumes(th)).value;
            && Bracketed(w2) && Executes(w2, th) && w2.threads[th].flow == Some(f) == w2.threads[th].scheduler
            && w2.threads[th].main == w.threads[th].main && !w2.fibers[f].inScheduler
  {
    hide Chain, ThreadOk, Resume;
    NewSchedulerIsUnclaimed(w, th, f);
    ResumedScheduler(SetScheduler(Create(w, f, false), th, f), th, f);
  }

  lemma NewSchedulerIsUnclaimed<F, T>(w: World<F, T>, th: T, f: F)
    requires Bracketed(w) && Executes(w, th) && w.threads[th].flow == w.threads[th].main && f !in w.fibers
    ensures var w1 := SetScheduler(Create(w, f, false), th, f);
            && Bracketed(w1) && Executes(w1, th) && Unclaimed(w1, f)
            && w1.threads[th] == w.threads[th].(scheduler := Some(f)) && w1.fibers[f] == Fiber(Ready, false, f, None)
  {
    hide Bracketed, Unclaimed;
    CallKeeps(w, UseCaller(th, f));
    ReadyIsUnclaimed(SetScheduler(Create(w, f, false), th, f), f);
  }

  lemma ResumedScheduler<F, T>(w: World<F, T>, th: T, f: F)
    requires Bracketed(w) && Executes(w, th) && w.threads[th].flow == w.threads[th].main
    requires Unclaimed(w, f) && w.threads[th].scheduler == Some(f) && w.fibers[f] == Fiber(Ready, false, f, None)
    ensures Resume(w, th, f).Some? && Bracketed(Resume(w, th, f).value)
    ensures var w' := Resume(w, th, f).value;
            && Executes(w', th) && w'.threads[th].flow == Some(f) == w'.threads[th].scheduler
            && w'.threads[th].main == w.threads[th].main && !w'.fibers[f].inScheduler
  {
    CallKeeps(w, StopResumes(th));
  }

  /** A thread that attaches executes its main fiber, which is its scheduler fiber too. */
  lemma AttachedThread<F, T>(w: World<F, T>, th: T, main: F, garbage: bool)
    requires Bracketed(w) && th in w.threads && w.threads[th].current.None? && main !in w.fibers
    ensures var w' := Step(w, Attach(th, main, garbage)).value;
            && Bracketed(w') && Executes(w', th)
            && w'.threads[th] == Thread(Some(main), Some(main), Some(main), Some(main))
  {
    AttachKeeps(w, th, main, garbage);
  }
}
