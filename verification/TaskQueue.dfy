// The shared task queue of Scheduler: the scan of run() and scheduleLock.

module TaskQueue {
  import opened Base

  /** A queue entry with the thread it is pinned to, -1 for any. */
  datatype Task<W> = Task(work: W, thread: int)

  predicate Eligible<W>(t: Task<W>, thread: int) {
    t.thread == -1 || t.thread == thread
  }

  /** The first task this thread may run. */
  function FirstEligible<W>(q: seq<Task<W>>, thread: int): (r: Option<nat>)
    ensures r.Some? ==> r.value < |q| && Eligible(q[r.value], thread)
    ensures r.Some? ==> forall i :: 0 <= i < r.value ==> !Eligible(q[i], thread)
    ensures r.None? ==> forall i :: 0 <= i < |q| ==> !Eligible(q[i], thread)
  {
    if q == [] then None
    else if Eligible(q[0], thread) then Some(0)
    else
      var r := FirstEligible(q[1..], thread);
      assert forall i :: 0 < i < |q| ==> q[i] == q[1..][i - 1];
      if r.Some? then Some(r.value + 1) else None
  }

  function Without<W>(q: seq<Task<W>>, i: nat): seq<Task<W>>
    requires i < |q|
  {
    q[..i] + q[i + 1..]
  }

  /** The queue seen by one thread: FIFO order within the tasks it is allowed to run. */
  function EligibleFor<W>(q: seq<Task<W>>, thread: int): seq<Task<W>> {
    if q == [] then []
    else (if Eligible(q[0], thread) then [q[0]] else []) + EligibleFor(q[1..], thread)
  }

  class Queue<W> {
    var tasks: seq<Task<W>>
    /** m_activeThreadCount: the workers between the pop of a task and its end. */
    var active: int

    constructor ()
      ensures tasks == [] && active == 0
    {
      tasks := [];
      active := 0;
    }

    /** The scan of run() under the queue lock: erases the task to run, if there is one, counts this worker as
        active for it, and says whether the other workers have to be woken. Everything that stays keeps its order. */
    method Take(thread: int) returns (task: Option<Task<W>>, tickle: bool)
      modifies this
      ensures match FirstEligible(old(tasks), thread)
              case Some(i) => task == Some(old(tasks)[i]) && tasks == Without(old(tasks), i)
                  && active == old(active) + 1
              case None => task == None && tasks == old(tasks) && active == old(active)
      ensures tickle <==> tasks != []
    {
      task := None;
      tickle := false;
      var it := 0;
      while it < |tasks|
        invariant 0 <= it <= |tasks| && tasks == old(tasks) && active == old(active) && task.None?
        invariant forall i :: 0 <= i < it ==> !Eligible(tasks[i], thread)
        invariant tickle <==> it > 0
      {
        if tasks[it].thread != -1 && tasks[it].thread != thread {
          it := it + 1;
          tickle := true;
        } else {
          task := Some(tasks[it]);
          tasks := tasks[..it] + tasks[it + 1..];
          active := active + 1;
          break;
        }
      }
      tickle := tickle || it != |tasks|;
    }

    /** The end of a task in run(). */
    method Retire()
      modifies this`active
      ensures active == old(active) - 1
    {
      active := active - 1;
    }

    /** scheduleLock: `work` is None for a null fiber or callback, which is not queued. */
    method Schedule(work: Option<W>, thread: int) returns (needTickle: bool)
      modifies this`tasks
      ensures needTickle <==> old(tasks) == []
      ensures tasks == old(tasks) + if work.Some? then [Task(work.value, thread)] else []
    {
      needTickle := tasks == [];
      if work.Some? {
        tasks := tasks + [Task(work.value, thread)];
      }
    }
  }

  lemma {:induction false} EligibleForAppend<W>(a: seq<Task<W>>, b: seq<Task<W>>, thread: int)
    ensures EligibleFor(a + b, thread) == EligibleFor(a, thread) + EligibleFor(b, thread)
  {
    if a == [] {
      assert a + b == b;
    } else {
      assert (a + b)[1..] == a[1..] + b;
      EligibleForAppend(a[1..], b, thread);
    }
  }

  lemma {:induction false} NoneEligible<W>(q: seq<Task<W>>, thread: int)
    requires forall i :: 0 <= i < |q| ==> !Eligible(q[i], thread)
    ensures EligibleFor(q, thread) == []
  {
    if q != [] {
      assert forall i :: 0 <= i < |q[1..]| ==> q[1..][i] == q[i + 1];
      NoneEligible(q[1..], thread);
    }
  }

  /** Erasing one task takes only that task out of what a thread sees. */
  lemma EligibleForWithout<W>(q: seq<Task<W>>, i: nat, thread: int)
    requires i < |q|
    ensures EligibleFor(q, thread)
            == EligibleFor(q[..i], thread) + (if Eligible(q[i], thread) then [q[i]] else [])
               + EligibleFor(q[i + 1..], thread)
    ensures EligibleFor(Without(q, i), thread) == EligibleFor(q[..i], thread) + EligibleFor(q[i + 1..], thread)
  {
    assert q == q[..i] + ([q[i]] + q[i + 1..]);
    assert ([q[i]] + q[i + 1..])[1..] == q[i + 1..];
    EligibleForAppend(q[..i], [q[i]] + q[i + 1..], thread);
    EligibleForAppend(q[..i], q[i + 1..], thread);
  }

  /** FIFO per eligibility class: a thread takes the head of the tasks it may run. */
  lemma TakeIsFifo<W>(q: seq<Task<W>>, thread: int)
    ensures match FirstEligible(q, thread)
            case Some(i) => EligibleFor(q, thread) == [q[i]] + EligibleFor(Without(q, i), thread)
            case None => EligibleFor(q, thread) == []
  {
    match FirstEligible(q, thread) {
      case Some(i) =>
        EligibleForWithout(q, i, thread);
        NoneEligible(q[..i], thread);
      case None =>
        NoneEligible(q, thread);
    }
  }

  /** A task scheduled later is behind every earlier one in what each thread sees. */
  lemma ScheduleIsLast<W>(q: seq<Task<W>>, t: Task<W>, thread: int)
    ensures EligibleFor(q + [t], thread) == EligibleFor(q, thread) + if Eligible(t, thread) then [t] else []
  {
    EligibleForAppend(q, [t], thread);
    assert EligibleFor([t], thread) == (if Eligible(t, thread) then [t] else []) + EligibleFor([], thread);
  }
}
