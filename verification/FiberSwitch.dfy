// Fiber and the three per-thread pointers with their fields updated in place, proved against Fibers.

module FiberSwitch {
  import opened Base
  import Fb = Fibers

  /** The thread-local variables of one thread. `flow` is the fiber whose code the thread executes. */
  class Thread {
    var current: Fiber?
    var main: Fiber?
    var scheduler: Fiber?
    ghost var flow: Fiber?

    constructor ()
      ensures Snap() == Fb.NewThread()
    {
      current, main, scheduler, flow := null, null, null, null;
    }

    ghost function Snap(): Fb.Thread<Fiber>
      reads this
    {
      Fb.Thread(AsOption(current), AsOption(main), AsOption(scheduler), AsOption(flow))
    }

    /** GetThis. */
    method GetThis(garbage: bool, ghost fs: set<Fiber>, ghost ts: set<Thread>) returns (r: Fiber, created: bool)
      requires this in ts
      modifies this
      ensures created == (old(current) == null) && (created ==> fresh(r)) && r == current
      ensures View(if created then fs + {r} else fs, ts) == Fb.GetThis(old(View(fs, ts)), this, r, garbage)
    {
      if current != null {
        return current, false;
      }
      ghost var before := View(fs, ts);
      r := new Fiber.Main(this, garbage);
      current, main, scheduler, flow := r, r, r, r;
      created := true;
      assert View(fs + {r}, ts).fibers == before.fibers[r := r.Snap()];
      assert View(fs + {r}, ts).threads == before.threads[this := Snap()];
    }

    method SetThis(f: Fiber, ghost fs: set<Fiber>, ghost ts: set<Thread>)
      requires this in ts
      modifies this`current
      ensures View(fs, ts) == Fb.SetThis(old(View(fs, ts)), this, f)
    {
      ghost var before := View(fs, ts);
      current := f;
      assert View(fs, ts).fibers == before.fibers;
      assert View(fs, ts).threads == before.threads[this := Snap()];
    }

    method SetScheduler(f: Fiber, ghost fs: set<Fiber>, ghost ts: set<Thread>)
      requires this in ts
      modifies this`scheduler
      ensures View(fs, ts) == Fb.SetScheduler(old(View(fs, ts)), this, f)
    {
      ghost var before := View(fs, ts);
      scheduler := f;
      assert View(fs, ts).fibers == before.fibers;
      assert View(fs, ts).threads == before.threads[this := Snap()];
    }

    /** swapcontext(save, load): what this thread was executing is stored in `save`. */
    ghost method Swap(save: Fiber, load: Fiber, fs: set<Fiber>, ts: set<Thread>)
      requires this in ts && save in fs && load in fs && flow != null
      modifies this`flow, save`saved
      ensures View(fs, ts) == Fb.Swap(old(View(fs, ts)), this, save, load)
    {
      save.Store(flow, fs, ts);
      var before := View(fs, ts);
      flow := load.saved;
      assert View(fs, ts).fibers == before.fibers;
      assert View(fs, ts).threads == before.threads[this := Snap()];
    }
  }

  class Fiber {
    var status: Fb.Status
    const inScheduler: bool
    /** m_ctx, by the fiber whose code goes on when it is loaded. */
    ghost var saved: Fiber
    ghost var resumer: Option<(Thread, Fiber)>

    constructor (inScheduler: bool)
      ensures this.Snap() == Fb.Fiber(Fb.Ready, inScheduler, this, None)
    {
      status := Fb.Ready;
      this.inScheduler := inScheduler;
      saved := this;
      resumer := None;
    }

    /** The private constructor of a thread's main fiber; it leaves m_runInScheduler as it is. */
    constructor Main(th: Thread, garbage: bool)
      ensures this.Snap() == Fb.Fiber(Fb.Running, garbage, this, None)
    {
      status := Fb.Running;
      inScheduler := garbage;
      saved := this;
      resumer := None;
    }

    ghost function Snap(): Fb.Fiber<Fiber, Thread>
      reads this
    {
      Fb.Fiber(status, inScheduler, saved, resumer)
    }

    ghost method Store(f: Fiber, fs: set<Fiber>, ts: set<Thread>)
      requires this in fs
      modifies this`saved
      ensures var w := old(View(fs, ts)); View(fs, ts) == w.(fibers := w.fibers[this := w.fibers[this].(saved := f)])
    {
      var before := View(fs, ts);
      saved := f;
      assert View(fs, ts).fibers == before.fibers[this := Snap()];
      assert View(fs, ts).threads == before.threads;
    }

    method Reset(ghost fs: set<Fiber>, ghost ts: set<Thread>)
      requires this in fs && Fb.Reset(View(fs, ts), this).Some?
      modifies this
      ensures Some(View(fs, ts)) == Fb.Reset(old(View(fs, ts)), this)
    {
      ghost var before := View(fs, ts);
      status, saved := Fb.Ready, this;
      assert View(fs, ts).fibers == before.fibers[this := Snap()];
      assert View(fs, ts).threads == before.threads;
    }

    method Resume(th: Thread, ghost fs: set<Fiber>, ghost ts: set<Thread>)
      requires th in ts && this in fs && Fb.Resume(View(fs, ts), th, this).Some?
      modifies this, th, fs
      ensures Some(View(fs, ts)) == Fb.Resume(old(View(fs, ts)), th, this)
    {
      hide Fb.Swap;
      Start(th, fs, ts);
      th.SetThis(this, fs, ts);
      th.Swap(if inScheduler then th.scheduler else th.main, this, fs, ts);
    }

    /** The state of a fiber that is resumed from thread th. */
    method Start(th: Thread, ghost fs: set<Fiber>, ghost ts: set<Thread>)
      requires this in fs && th.flow != null
      modifies this`status, this`resumer
      ensures var w := old(View(fs, ts));
              var fiber := w.fibers[this].(status := Fb.Running, resumer := Some((th, th.flow)));
              View(fs, ts) == w.(fibers := w.fibers[this := fiber])
    {
      ghost var before := View(fs, ts);
      status, resumer := Fb.Running, Some((th, th.flow));
      assert View(fs, ts).fibers == before.fibers[this := Snap()];
      assert View(fs, ts).threads == before.threads;
    }

    method SetStatus(s: Fb.Status, ghost fs: set<Fiber>, ghost ts: set<Thread>)
      requires this in fs
      modifies this`status
      ensures View(fs, ts) == Fb.SetStatus(old(View(fs, ts)), this, s)
    {
      ghost var before := View(fs, ts);
      status := s;
      assert View(fs, ts).fibers == before.fibers[this := Snap()];
      assert View(fs, ts).threads == before.threads;
    }

    method Yield(th: Thread, ghost fs: set<Fiber>, ghost ts: set<Thread>)
      requires th in ts && this in fs && Fb.Yield(View(fs, ts), th, this).Some?
      modifies this, th, fs
      ensures Some(View(fs, ts)) == Fb.Yield(old(View(fs, ts)), th, this)
    {
      hide Fb.Swap;
      if status != Fb.Term {
        SetStatus(Fb.Ready, fs, ts);
      }
      if inScheduler {
        th.SetThis(th.scheduler, fs, ts);
        th.Swap(this, th.scheduler, fs, ts);
      } else {
        th.SetThis(th.main, fs, ts);
        th.Swap(this, th.main, fs, ts);
      }
    }
  }

  function AsOption(f: Fiber?): Option<Fiber> {
    if f == null then None else Some(f)
  }

  ghost function View(fs: set<Fiber>, ts: set<Thread>): Fb.World<Fiber, Thread>
    reads fs, ts
  {
    Fb.World(map f | f in fs :: f.Snap(), map th | th in ts :: th.Snap())
  }
}
