// IOManager with its fd contexts updated in place, proved against the functions of Events.

module IoManager {
  import Ev = Events

  type Waiter<F, C> = Ev.Waiter<F, C>

  /** FdContext. */
  class Context<F(==), C(==)> {
    var events: Ev.Bits
    var read: Ev.EventContext<F, C>
    var write: Ev.EventContext<F, C>

    constructor ()
      ensures Snap() == Ev.FreshContext()
    {
      events := Ev.NoBits;
      read := Ev.Cleared();
      write := Ev.Cleared();
    }

    function Snap(): Ev.FdContext<F, C>
      reads this
    {
      Ev.FdContext(events, read, write)
    }

    method SetSlot(e: Ev.Event, bits: Ev.Bits, slot: Ev.EventContext<F, C>)
      modifies this
      ensures Snap() == old(Snap()).(events := bits).WithSlot(e, slot)
    {
      events := bits;
      match e {
        case Read => read := slot;
        case Write => write := slot;
      }
    }
  }

  /** The epoll instance. */
  class Epoll {
    var interest: Ev.Interest

    constructor ()
      ensures interest == map[]
    {
      interest := map[];
    }

    method Ctl(op: Ev.CtlOp, fd: nat, bits: Ev.Bits, refused: bool) returns (ok: bool)
      modifies this
      ensures match Ev.EpollCtl(old(interest), op, fd, bits, refused)
              case Some(i) => ok && interest == i
              case None => !ok && interest == old(interest)
    {
      match Ev.EpollCtl(interest, op, fd, bits, refused) {
        case Some(i) => interest := i; ok := true;
        case None => ok := false;
      }
    }
  }

  ghost function Snaps<F, C>(cs: seq<Context<F, C>>): (r: seq<Ev.FdContext<F, C>>)
    reads cs
    ensures |r| == |cs| && forall i :: 0 <= i < |cs| ==> r[i] == cs[i].Snap()
  {
    seq(|cs|, i requires 0 <= i < |cs| reads cs => cs[i].Snap())
  }

  /** `tasks` is what triggerEvent has handed to scheduleLock. */
  class Manager<F(==), C(==)> {
    var contexts: seq<Context<F, C>>
    var pending: int
    var tasks: seq<Waiter<F, C>>
    const epoll: Epoll

    /** The contexts are separate objects. */
    ghost predicate Valid()
      reads this
    {
      && |contexts| >= Ev.InitialSize
      && forall i, j :: 0 <= i < j < |contexts| ==> contexts[i] != contexts[j]
    }

    ghost function View(): Ev.Table<F, C>
      reads this, contexts, epoll
    {
      Ev.Table(Snaps(contexts), pending, epoll.interest)
    }

    constructor ()
      ensures Valid() && View() == Ev.EmptyTable() && tasks == [] && fresh(contexts) && fresh(epoll)
      ensures |contexts| == 32 && forall c :: c in contexts ==> c.events.Empty()
    {
      contexts := [];
      pending := 0;
      tasks := [];
      epoll := new Epoll();
      new;
      GrowTo(Ev.InitialSize);
      Ev.FreshTableIsEmpty(Snaps(contexts));
    }

    /** The loop of contextResize, for a table that does not shrink. */
    method GrowTo(size: nat)
      requires |contexts| <= size
      requires forall i, j :: 0 <= i < j < |contexts| ==> contexts[i] != contexts[j]
      modifies this`contexts
      ensures |contexts| == size && contexts[..|old(contexts)|] == old(contexts)
      ensures forall i, j :: 0 <= i < j < |contexts| ==> contexts[i] != contexts[j]
      ensures forall i :: |old(contexts)| <= i < size ==> fresh(contexts[i]) && contexts[i].Snap() == Ev.FreshContext()
    {
      while |contexts| < size
        invariant |old(contexts)| <= |contexts| <= size && contexts[..|old(contexts)|] == old(contexts)
        invariant forall i, j :: 0 <= i < j < |contexts| ==> contexts[i] != contexts[j]
        invariant forall i :: |old(contexts)| <= i < |contexts| ==>
                    fresh(contexts[i]) && contexts[i].Snap() == Ev.FreshContext()
        invariant forall i :: 0 <= i < |contexts| ==> allocated(contexts[i])
      {
        var c := new Context<F, C>();
        contexts := contexts + [c];
      }
    }

    /** The lookup of addEvent. */
    method Ensure(fd: nat)
      requires Valid()
      modifies this`contexts
      ensures Valid() && fd < |contexts| && View() == Ev.EnsureContext(old(View()), fd)
      ensures forall c :: c in contexts ==> c in old(contexts) || fresh(c)
    {
      if |contexts| <= fd {
        GrowTo(fd * 3 / 2);
        ghost var was := old(Snaps(contexts));
        forall i | 0 <= i < |contexts| ensures Snaps(contexts)[i] == Ev.Resize(was, fd * 3 / 2)[i] {
          if i < |old(contexts)| {
            assert contexts[i] == old(contexts)[i];
          }
        }
        assert Snaps(contexts) == Ev.Resize(was, fd * 3 / 2);
        forall c | c in contexts ensures c in old(contexts) || fresh(c) {
          var i :| 0 <= i < |contexts| && contexts[i] == c;
          if i < |old(contexts)| {
            assert contexts[i] == old(contexts)[i];
          }
        }
      }
    }

    /** Writes one context; every other one stays. */
    method Put(fd: nat, e: Ev.Event, bits: Ev.Bits, slot: Ev.EventContext<F, C>)
      requires Valid() && fd < |contexts|
      modifies contexts[fd]
      ensures Snaps(contexts) == old(Snaps(contexts))[fd := old(Snaps(contexts))[fd].(events := bits).WithSlot(e, slot)]
    {
      contexts[fd].SetSlot(e, bits, slot);
    }

    /** The assert on the blank slot is the second precondition. */
    method AddEvent(fd: nat, e: Ev.Event, waiter: Waiter<F, C>, refused: bool) returns (rt: int)
      requires Valid()
      requires Ev.AddEvent(View(), fd, e, waiter, refused).Done?
      modifies this`contexts, this`pending, contexts, epoll
      ensures Valid() && forall c :: c in contexts ==> c in old(contexts) || fresh(c)
      ensures var r := Ev.AddEvent(old(View()), fd, e, waiter, refused);
              View() == r.table && rt == if r.ret then 0 else -1
    {
      hide Snaps, Ev.FreshContext, Ev.Resize, Ev.EpollCtl, Ev.EnsureContext;
      Ensure(fd);
      ghost var t := View();
      var ctx := contexts[fd];
      if ctx.events.Has(e) {
        return -1;
      }
      var op := if ctx.events.Empty() then Ev.Add else Ev.Mod;
      var ok := epoll.Ctl(op, fd, ctx.events.With(e), refused);
      if !ok {
        return -1;
      }
      pending := pending + 1;
      assert ctx in contexts && View() == t.(pending := t.pending + 1, interest := epoll.interest);
      Put(fd, e, ctx.events.With(e), Ev.Filled(waiter));
      return 0;
    }

    method DelEvent(fd: nat, e: Ev.Event, refused: bool) returns (deleted: bool)
      requires Valid()
      modifies this`pending, contexts, epoll
      ensures Valid()
      ensures var r := Ev.DelEvent(old(View()), fd, e, refused); r.Done? && View() == r.table && deleted == r.ret
    {
      if |contexts| <= fd {
        return false;
      }
      var ctx := contexts[fd];
      if !ctx.events.Has(e) {
        return false;
      }
      hide Ev.EpollCtl;
      var left := ctx.events.Without(e);
      var ok := epoll.Ctl(if left.Empty() then Ev.Del else Ev.Mod, fd, left, refused);
      if !ok {
        return true;
      }
      pending := pending - 1;
      Put(fd, e, left, Ev.Cleared());
      return true;
    }

    /** FdContext::triggerEvent; its assert is the precondition. The counter is the caller's. */
    method TriggerEvent(fd: nat, e: Ev.Event)
      requires Valid() && fd < |contexts| && contexts[fd].events.Has(e)
      modifies this`tasks, contexts
      ensures Valid()
      ensures var r := Ev.Trigger(old(View()), fd, e);
              r.Done? && View() == r.table.(pending := old(pending)) && tasks == old(tasks) + r.woken
    {
      var ctx := contexts[fd];
      var slot := if e.Read? then ctx.read else ctx.write;
      tasks := tasks + slot.Target();
      Put(fd, e, ctx.events.Without(e), Ev.Cleared());
    }

    method CancelEvent(fd: nat, e: Ev.Event, refused: bool) returns (cancelled: bool)
      requires Valid()
      modifies this`pending, this`tasks, contexts, epoll
      ensures Valid()
      ensures var r := Ev.CancelEvent(old(View()), fd, e, refused);
              r.Done? && View() == r.table && cancelled == r.ret && tasks == old(tasks) + r.woken
    {
      hide Snaps, Ev.EpollCtl;
      if |contexts| <= fd {
        return false;
      }
      var ctx := contexts[fd];
      if !ctx.events.Has(e) {
        return false;
      }
      var left := ctx.events.Without(e);
      var ok := epoll.Ctl(if left.Empty() then Ev.Del else Ev.Mod, fd, left, refused);
      if !ok {
        return true;
      }
      pending := pending - 1;
      ghost var t := View();
      TriggerEvent(fd, e);
      assert View() == Ev.Trigger(t, fd, e).table.(pending := t.pending);
      return true;
    }

    /** triggerEvent and the decrement, when `cond` holds; `before` is what was scheduled before the operation. */
    method TriggerIf(fd: nat, e: Ev.Event, cond: bool, ghost sofar: Ev.Result<F, C>, ghost before: seq<Waiter<F, C>>)
      requires Valid() && fd < |contexts| && sofar.Done? && sofar.table == View() && tasks == before + sofar.woken
      requires Ev.AndTrigger(sofar, fd, e, cond).Done?
      modifies this`pending, this`tasks, contexts
      ensures Valid()
      ensures var r := Ev.AndTrigger(sofar, fd, e, cond); View() == r.table && tasks == before + r.woken
    {
      if cond {
        TriggerEvent(fd, e);
        pending := pending - 1;
      }
    }

    /** READ first, then WRITE. */
    method TriggerBoth(fd: nat, bits: Ev.Bits, ghost sofar: Ev.Result<F, C>, ghost before: seq<Waiter<F, C>>)
      requires Valid() && fd < |contexts| && sofar.Done? && sofar.table == View() && tasks == before + sofar.woken
      requires Ev.TriggerBoth(sofar, fd, bits).Done?
      modifies this`pending, this`tasks, contexts
      ensures Valid()
      ensures var r := Ev.TriggerBoth(sofar, fd, bits); View() == r.table && tasks == before + r.woken
    {
      TriggerIf(fd, Ev.Read, bits.read, sofar, before);
      TriggerIf(fd, Ev.Write, bits.write, Ev.AndTrigger(sofar, fd, Ev.Read, bits.read), before);
    }

    /** The last assert, that no event is left, is part of the first precondition. */
    method CancelAll(fd: nat, refused: bool) returns (cancelled: bool)
      requires Valid()
      requires Ev.CancelAll(View(), fd, refused).Done?
      modifies this`pending, this`tasks, contexts, epoll
      ensures Valid()
      ensures var r := Ev.CancelAll(old(View()), fd, refused);
              View() == r.table && cancelled == r.ret && tasks == old(tasks) + r.woken
    {
      if |contexts| <= fd {
        return false;
      }
      var ctx := contexts[fd];
      if ctx.events.Empty() {
        return false;
      }
      ghost var t := View();
      var ok := epoll.Ctl(Ev.Del, fd, Ev.NoBits, refused);
      if !ok {
        return true;
      }
      ghost var r0 := Ev.Done(t.(interest := epoll.interest), [], true);
      TriggerIf(fd, Ev.Read, ctx.events.read, r0, old(tasks));
      ghost var r1 := Ev.AndTrigger(r0, fd, Ev.Read, t.contexts[fd].events.read);
      TriggerIf(fd, Ev.Write, ctx.events.write, r1, old(tasks));
      return true;
    }

    /** The body of the dispatch loop of idle(). */
    method Dispatch(r: Ev.Report, refused: bool)
      requires Valid() && r.fd < |contexts|
      requires Ev.Dispatch(View(), r, refused).Done?
      modifies this`pending, this`tasks, contexts, epoll
      ensures Valid()
      ensures var d := Ev.Dispatch(old(View()), r, refused); View() == d.table && tasks == old(tasks) + d.woken
    {
      ghost var t := View();
      var ctx := contexts[r.fd];
      var input := r.input || (r.error && ctx.events.read);
      var output := r.output || (r.error && ctx.events.write);
      var hit := Ev.Bits(input, output);
      if ctx.events.And(hit).Empty() {
        return;
      }
      var left := ctx.events.Minus(hit);
      var ok := epoll.Ctl(if left.Empty() then Ev.Del else Ev.Mod, r.fd, left, refused);
      if !ok {
        return;
      }
      TriggerBoth(r.fd, hit, Ev.Done(t.(interest := epoll.interest), [], true), old(tasks));
    }

    /** One turn of the loop, after `sofar`. */
    method DispatchNext(r: Ev.Report, refused: bool, ghost sofar: Ev.Result<F, C>, ghost before: seq<Waiter<F, C>>)
      requires Valid() && sofar.Done? && sofar.table == View() && tasks == before + sofar.woken
      requires Ev.AndDispatch(sofar, r, refused).Done?
      modifies this`pending, this`tasks, contexts, epoll
      ensures Valid()
      ensures var d := Ev.AndDispatch(sofar, r, refused); View() == d.table && tasks == before + d.woken
    {
      Dispatch(r, refused);
    }

    /** The dispatch loop of idle() over the reports of one epoll_wait. */
    method DispatchAll(reports: seq<Ev.Report>, refusals: seq<bool>)
      requires Valid() && |refusals| == |reports|
      requires Ev.DispatchUpTo(View(), reports, refusals, |reports|).Done?
      modifies this`pending, this`tasks, contexts, epoll
      ensures Valid()
      ensures var d := Ev.DispatchUpTo(old(View()), reports, refusals, |reports|);
              View() == d.table && tasks == old(tasks) + d.woken
    {
      hide Ev.AndDispatch;
      ghost var t, before := View(), tasks;
      var i := 0;
      while i < |reports|
        invariant 0 <= i <= |reports| && Valid() && contexts == old(contexts)
        invariant var d := Ev.DispatchUpTo(t, reports, refusals, i);
                  d.Done? && View() == d.table && tasks == before + d.woken
      {
        Ev.DispatchPrefixDone(t, reports, refusals, i + 1, |reports|);
        DispatchNext(reports[i], refusals[i], Ev.DispatchUpTo(t, reports, refusals, i), before);
        i := i + 1;
      }
    }
  }
}
