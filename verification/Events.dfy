// The table of fd contexts of IOManager, mirrored into the epoll interest map, as a value.
// IoManager.dfy updates the same table in place and is proved against these functions.

module Events {
  import opened Base

  datatype Event = Read | Write

  /** A mask of READ and WRITE. */
  datatype Bits = Bits(read: bool, write: bool) {
    predicate Has(e: Event) {
      match e
      case Read => read
      case Write => write
    }

    predicate Empty() {
      !read && !write
    }

    function With(e: Event): Bits {
      match e
      case Read => this.(read := true)
      case Write => this.(write := true)
    }

    function Without(e: Event): Bits {
      match e
      case Read => this.(read := false)
      case Write => this.(write := false)
    }

    function And(b: Bits): Bits {
      Bits(read && b.read, write && b.write)
    }

    function Minus(b: Bits): Bits {
      Bits(read && !b.read, write && !b.write)
    }
  }

  const NoBits := Bits(false, false)

  /** What triggerEvent moves to the task queue: the fiber that waits, or a plain callback. */
  datatype Waiter<F, C> = FiberWaiter(fiber: F) | CbWaiter(cb: C)

  /** FdContext::EventContext. `scheduler` is true when the scheduler pointer is set. */
  datatype EventContext<F, C> = EventContext(scheduler: bool, fiber: Option<F>, cb: Option<C>) {
    /** Every pointer is null, as addEvent asserts before it fills the context. */
    predicate Blank() {
      !scheduler && fiber.None? && cb.None?
    }

    /** A scheduler and exactly one of fiber and cb. */
    predicate Armed() {
      scheduler && (fiber.Some? <==> cb.None?)
    }

    /** The argument of scheduleLock in triggerEvent: the callback when there is one. */
    function Target(): seq<Waiter<F, C>> {
      if cb.Some? then [CbWaiter(cb.value)]
      else if fiber.Some? then [FiberWaiter(fiber.value)]
      else []
    }
  }

  function Cleared<F, C>(): EventContext<F, C> {
    EventContext(false, None, None)
  }

  function Filled<F, C>(waiter: Waiter<F, C>): EventContext<F, C> {
    match waiter
    case FiberWaiter(f) => EventContext(true, Some(f), None)
    case CbWaiter(c) => EventContext(true, None, Some(c))
  }

  datatype FdContext<F, C> = FdContext(events: Bits, read: EventContext<F, C>, write: EventContext<F, C>) {
    function Slot(e: Event): EventContext<F, C> {
      match e
      case Read => read
      case Write => write
    }

    function WithSlot(e: Event, c: EventContext<F, C>): FdContext<F, C> {
      match e
      case Read => this.(read := c)
      case Write => this.(write := c)
    }

    /** A bit is set iff its slot holds a scheduler and exactly one target; a clear bit has a blank slot. */
    predicate Consistent() {
      && (if events.read then read.Armed() else read.Blank())
      && (if events.write then write.Armed() else write.Blank())
    }
  }

  function FreshContext<F, C>(): FdContext<F, C> {
    FdContext(NoBits, Cleared(), Cleared())
  }

  type Interest = map<nat, Bits>

  /** `pending` is m_pendingEventCount; `interest` is what the kernel watches. */
  datatype Table<F, C> = Table(contexts: seq<FdContext<F, C>>, pending: int, interest: Interest)

  /** The result of one operation: the new table, the waiters handed to the scheduler in order and the
      value returned; or the operation ran into a failing assert. */
  datatype Result<F, C> =
    | Done(table: Table<F, C>, woken: seq<Waiter<F, C>>, ret: bool)
    | AssertFailed

  // ---------- the kernel ----------

  datatype CtlOp = Add | Mod | Del

  /** epoll_ctl: ADD needs an absent fd, MOD and DEL a present one. `refused` stands for any other
      reason of the kernel to fail (EBADF, ENOMEM, EPERM, ...); a failing call changes nothing. */
  function EpollCtl(interest: Interest, op: CtlOp, fd: nat, bits: Bits, refused: bool): Option<Interest> {
    if refused then None
    else match op
      case Add => if fd in interest then None else Some(interest[fd := bits])
      case Mod => if fd in interest then Some(interest[fd := bits]) else None
      case Del => if fd in interest then Some(interest - {fd}) else None
  }

  // ---------- operations ----------

  const InitialSize: nat := 32

  function EmptyTable<F, C>(): Table<F, C> {
    Table(seq(InitialSize, _ => FreshContext()), 0, map[])
  }

  /** contextResize: existing contexts stay, new slots get a fresh context. */
  function Resize<F, C>(contexts: seq<FdContext<F, C>>, size: nat): seq<FdContext<F, C>> {
    if size <= |contexts| then contexts[..size]
    else contexts + seq(size - |contexts|, _ => FreshContext())
  }

  /** The lookup of addEvent, which grows the table to floor(1.5 * fd) slots when fd has none. */
  function EnsureContext<F, C>(t: Table<F, C>, fd: nat): Table<F, C> {
    if |t.contexts| > fd then t else t.(contexts := Resize(t.contexts, fd * 3 / 2))
  }

  /** The event has been added and not yet been triggered or taken away. */
  predicate Registered<F, C>(t: Table<F, C>, fd: nat, e: Event) {
    fd < |t.contexts| && t.contexts[fd].events.Has(e)
  }

  function AddEvent<F, C>(t0: Table<F, C>, fd: nat, e: Event, waiter: Waiter<F, C>, refused: bool): Result<F, C>
    requires |t0.contexts| >= InitialSize
  {
    var t := EnsureContext(t0, fd);
    var ctx := t.contexts[fd];
    if ctx.events.Has(e) then Done(t, [], false)
    else
      var op := if ctx.events.Empty() then Add else Mod;
      match EpollCtl(t.interest, op, fd, ctx.events.With(e), refused)
      case None => Done(t, [], false)
      case Some(interest) =>
        if !ctx.Slot(e).Blank() then AssertFailed
        else
          var ctx' := ctx.(events := ctx.events.With(e)).WithSlot(e, Filled(waiter));
          Done(Table(t.contexts[fd := ctx'], t.pending + 1, interest), [], true)
  }

  /** triggerEvent together with the decrement of m_pendingEventCount that accompanies it everywhere. */
  function Trigger<F, C>(t: Table<F, C>, fd: nat, e: Event): Result<F, C>
    requires fd < |t.contexts|
    ensures Trigger(t, fd, e).Done? ==> |Trigger(t, fd, e).table.contexts| == |t.contexts|
  {
    var ctx := t.contexts[fd];
    if !ctx.events.Has(e) then AssertFailed
    else
      var ctx' := ctx.(events := ctx.events.Without(e)).WithSlot(e, Cleared());
      Done(t.(contexts := t.contexts[fd := ctx'], pending := t.pending - 1), ctx.Slot(e).Target(), true)
  }

  /** Continues a result with one more trigger when `cond` holds. */
  function AndTrigger<F, C>(r: Result<F, C>, fd: nat, e: Event, cond: bool): Result<F, C>
    requires r.Done? ==> fd < |r.table.contexts|
  {
    if r.AssertFailed? || !cond then r
    else match Trigger(r.table, fd, e)
      case AssertFailed => AssertFailed
      case Done(t, woken, ret) => Done(t, r.woken + woken, r.ret)
  }

  /** One trigger for READ, then one for WRITE, each when `bits` names it. */
  function TriggerBoth<F, C>(r: Result<F, C>, fd: nat, bits: Bits): Result<F, C>
    requires r.Done? ==> fd < |r.table.contexts|
  {
    AndTrigger(AndTrigger(r, fd, Read, bits.read), fd, Write, bits.write)
  }

  function DelEvent<F, C>(t: Table<F, C>, fd: nat, e: Event, refused: bool): Result<F, C> {
    if |t.contexts| <= fd || !t.contexts[fd].events.Has(e) then Done(t, [], false)
    else
      var ctx := t.contexts[fd];
      var left := ctx.events.Without(e);
      match EpollCtl(t.interest, if left.Empty() then Del else Mod, fd, left, refused)
      case None => Done(t, [], true)   // the -1 of the failing branch converts to true
      case Some(interest) =>
        var ctx' := ctx.(events := left).WithSlot(e, Cleared());
        Done(Table(t.contexts[fd := ctx'], t.pending - 1, interest), [], true)
  }

  function CancelEvent<F, C>(t: Table<F, C>, fd: nat, e: Event, refused: bool): Result<F, C> {
    if |t.contexts| <= fd || !t.contexts[fd].events.Has(e) then Done(t, [], false)
    else
      var left := t.contexts[fd].events.Without(e);
      match EpollCtl(t.interest, if left.Empty() then Del else Mod, fd, left, refused)
      case None => Done(t, [], true)
      case Some(interest) => Trigger(t.(interest := interest), fd, e)
  }

  function CancelAll<F, C>(t: Table<F, C>, fd: nat, refused: bool): Result<F, C> {
    if |t.contexts| <= fd || t.contexts[fd].events.Empty() then Done(t, [], false)
    else match EpollCtl(t.interest, Del, fd, NoBits, refused)
      case None => Done(t, [], true)
      case Some(interest) =>
        var r0 := Done(t.(interest := interest), [], true);
        var r1 := AndTrigger(r0, fd, Read, r0.table.contexts[fd].events.read);
        if r1.AssertFailed? then AssertFailed
        else
          var r2 := AndTrigger(r1, fd, Write, r1.table.contexts[fd].events.write);
          if r2.AssertFailed? || !r2.table.contexts[fd].events.Empty() then AssertFailed else r2
  }

  /** One epoll_event of an epoll_wait: EPOLLIN, EPOLLOUT and EPOLLERR | EPOLLHUP. */
  datatype Report = Report(fd: nat, input: bool, output: bool, error: bool)

  /** real_events: an error counts as every event that is registered, the other bits are not masked. */
  function RealEvents<F, C>(ctx: FdContext<F, C>, r: Report): Bits {
    Bits(r.input || (r.error && ctx.events.read), r.output || (r.error && ctx.events.write))
  }

  /** The body of the dispatch loop of idle() for one report. */
  function Dispatch<F, C>(t: Table<F, C>, r: Report, refused: bool): Result<F, C>
    requires r.fd < |t.contexts|
  {
    var ctx := t.contexts[r.fd];
    var hit := RealEvents(ctx, r);
    if ctx.events.And(hit).Empty() then Done(t, [], true)
    else
      var left := ctx.events.Minus(hit);
      match EpollCtl(t.interest, if left.Empty() then Del else Mod, r.fd, left, refused)
      case None => Done(t, [], true)
      case Some(interest) =>
        TriggerBoth(Done(t.(interest := interest), [], true), r.fd, hit)
  }

  /** Every READ/WRITE bit of the report is still registered, or none of them is. Errors are masked by
      the code itself. */
  predicate Fresh<F, C>(t: Table<F, C>, r: Report)
    requires r.fd < |t.contexts|
  {
    var events := t.contexts[r.fd].events;
    || ((r.input ==> events.read) && (r.output ==> events.write))
    || events.And(RealEvents(t.contexts[r.fd], r)).Empty()
  }

  // ---------- agreement ----------

  function Weight<F, C>(w: Waiter<F, C> -> nat): (cw: FdContext<F, C> -> nat)
  {
    (ctx: FdContext<F, C>) => Sum(ctx.read.Target(), w) + Sum(ctx.write.Target(), w)
  }

  function BitCount<F, C>(): (cw: FdContext<F, C> -> nat)
  {
    (ctx: FdContext<F, C>) => (if ctx.events.read then 1 else 0) + (if ctx.events.write then 1 else 0)
  }

  /** Event bits agree with the waiter slots and with m_pendingEventCount. */
  ghost predicate Slots<F, C>(t: Table<F, C>) {
    && |t.contexts| >= InitialSize
    && (forall fd :: 0 <= fd < |t.contexts| ==> t.contexts[fd].Consistent())
    && t.pending == Sum(t.contexts, BitCount())
  }

  /** The kernel watches exactly the fds with a bit set, for exactly those bits. */
  ghost predicate Mirror<F, C>(t: Table<F, C>) {
    && (forall fd: nat :: fd in t.interest <==> fd < |t.contexts| && !t.contexts[fd].events.Empty())
    && (forall fd: nat :: fd in t.interest ==> t.interest[fd] == t.contexts[fd].events)
  }

  ghost predicate Agree<F, C>(t: Table<F, C>) {
    Slots(t) && Mirror(t)
  }

  /** The interest map after the registered events of fd became `bits`. */
  function Watching(interest: Interest, fd: nat, bits: Bits): Interest {
    if bits.Empty() then interest - {fd} else interest[fd := bits]
  }

  /** The operation each caller picks from the old and the new mask is legal in the kernel. */
  lemma CtlIsLegal<F, C>(t: Table<F, C>, fd: nat, bits: Bits, refused: bool)
    requires Mirror(t) && fd < |t.contexts|
    ensures var old' := t.contexts[fd].events;
            && (old'.Empty() && !bits.Empty() ==>
                  EpollCtl(t.interest, Add, fd, bits, refused) == if refused then None
                      else Some(Watching(t.interest, fd, bits)))
            && (!old'.Empty() ==>
                  EpollCtl(t.interest, if bits.Empty() then Del else Mod, fd, bits, refused) == if refused then None
                      else Some(Watching(t.interest, fd, bits)))
  {
  }

  /** It is the only choice: ADD is accepted while the mask in use is empty, the others while it is not. */
  lemma CtlIsTheOnlyChoice<F, C>(t: Table<F, C>, op: CtlOp, fd: nat, bits: Bits, refused: bool)
    requires Mirror(t) && fd < |t.contexts|
    ensures EpollCtl(t.interest, op, fd, bits, refused).Some?
            <==> !refused && (op.Add? <==> t.contexts[fd].events.Empty())
  {
  }

  lemma MirrorUpdate<F, C>(t: Table<F, C>, t': Table<F, C>, fd: nat)
    requires Mirror(t) && fd < |t.contexts| == |t'.contexts|
    requires forall i :: 0 <= i < |t.contexts| && i != fd ==> t'.contexts[i] == t.contexts[i]
    requires t'.interest == Watching(t.interest, fd, t'.contexts[fd].events)
    ensures Mirror(t')
  {
  }

  lemma EmptyTableAgrees<F, C>()
    ensures Agree(EmptyTable<F, C>())
  {
    hide Sum;
    SumZero(EmptyTable<F, C>().contexts, BitCount<F, C>());
  }

  lemma FreshTableIsEmpty<F, C>(cs: seq<FdContext<F, C>>)
    requires |cs| == InitialSize && forall i :: 0 <= i < |cs| ==> cs[i] == FreshContext<F, C>()
    ensures cs == EmptyTable<F, C>().contexts
  {
  }

  lemma EmptyTableWeighsNothing<F, C>(w: Waiter<F, C> -> nat)
    ensures Sum(EmptyTable<F, C>().contexts, Weight(w)) == 0
  {
    FreshContextsWeighNothing(EmptyTable<F, C>().contexts, w);
  }

  /** contextResize with floor(1.5 * fd) always reaches slot fd, keeps every context and adds nothing that waits. */
  lemma EnsureContextKeeps<F, C>(t: Table<F, C>, fd: nat, w: Waiter<F, C> -> nat)
    requires Agree(t)
    ensures var t' := EnsureContext(t, fd);
            && Agree(t') && fd < |t'.contexts| && |t.contexts| <= |t'.contexts|
            && (|t.contexts| <= fd ==> 2 * |t'.contexts| <= 3 * fd < 2 * |t'.contexts| + 2)
            && t'.contexts[..|t.contexts|] == t.contexts
            && t'.pending == t.pending && t'.interest == t.interest
            && Sum(t'.contexts, Weight(w)) == Sum(t.contexts, Weight(w))
  {
    if |t.contexts| <= fd {
      GrowKeeps(t, seq(fd * 3 / 2 - |t.contexts|, _ => FreshContext<F, C>()), w);
    }
  }

  lemma GrowKeeps<F, C>(t: Table<F, C>, extra: seq<FdContext<F, C>>, w: Waiter<F, C> -> nat)
    requires Agree(t)
    requires forall i :: 0 <= i < |extra| ==> extra[i] == FreshContext<F, C>()
    ensures var t' := t.(contexts := t.contexts + extra);
            && Agree(t') && t'.contexts[..|t.contexts|] == t.contexts
            && Sum(t'.contexts, Weight(w)) == Sum(t.contexts, Weight(w))
  {
    var t' := t.(contexts := t.contexts + extra);
    FreshContextsWeighNothing(extra, w);
    SumAppend(t.contexts, extra, BitCount<F, C>());
    SumAppend(t.contexts, extra, Weight(w));
    forall i | 0 <= i < |t'.contexts|
      ensures t'.contexts[i].Consistent() && (i >= |t.contexts| ==> t'.contexts[i].events.Empty())
    {
      if i < |t.contexts| {
        assert t'.contexts[i] == t.contexts[i];
      } else {
        assert t'.contexts[i] == extra[i - |t.contexts|];
      }
    }
  }

  lemma FreshContextsWeighNothing<F, C>(extra: seq<FdContext<F, C>>, w: Waiter<F, C> -> nat)
    requires forall i :: 0 <= i < |extra| ==> extra[i] == FreshContext<F, C>()
    ensures Sum(extra, BitCount<F, C>()) == 0 && Sum(extra, Weight(w)) == 0
  {
    SumZero(extra, BitCount<F, C>());
    SumZero(extra, Weight(w));
  }

  /** An update of one context in which the slot of e becomes `slot` and its bit `on`. */
  lemma SlotUpdate<F, C>(t: Table<F, C>, fd: nat, e: Event, on: bool, slot: EventContext<F, C>, w: Waiter<F, C> -> nat)
    requires Slots(t) && fd < |t.contexts|
    requires if on then slot.Armed() else slot.Blank()
    ensures var ctx := t.contexts[fd];
            var ctx' := ctx.(events := if on then ctx.events.With(e) else ctx.events.Without(e)).WithSlot(e, slot);
            var contexts := t.contexts[fd := ctx'];
            && (forall i :: 0 <= i < |contexts| ==> contexts[i].Consistent())
            && Sum(contexts, BitCount()) == Sum(t.contexts, BitCount())
                 + (if on then 1 else 0) - (if ctx.events.Has(e) then 1 else 0)
            && Sum(contexts, Weight(w)) + Sum(ctx.Slot(e).Target(), w)
                 == Sum(t.contexts, Weight(w)) + Sum(slot.Target(), w)
  {
    var ctx := t.contexts[fd];
    var ctx' := ctx.(events := if on then ctx.events.With(e) else ctx.events.Without(e)).WithSlot(e, slot);
    SumUpdate(t.contexts, fd, ctx', BitCount<F, C>());
    SumUpdate(t.contexts, fd, ctx', Weight(w));
  }

  /** triggerEvent fails its assert iff the bit is clear; otherwise the waiter it held goes to the scheduler. */
  lemma TriggerKeeps<F, C>(t: Table<F, C>, fd: nat, e: Event, w: Waiter<F, C> -> nat)
    requires Slots(t) && fd < |t.contexts|
    ensures var r := Trigger(t, fd, e);
            && (r.Done? <==> t.contexts[fd].events.Has(e))
            && (r.Done? ==>
                  && Slots(r.table) && r.ret && |r.woken| == 1
                  && r.table.interest == t.interest
                  && r.table.contexts[fd].events == t.contexts[fd].events.Without(e)
                  && (forall i :: 0 <= i < |t.contexts| && i != fd ==> r.table.contexts[i] == t.contexts[i])
                  && Sum(r.table.contexts, Weight(w)) + Sum(r.woken, w) == Sum(t.contexts, Weight(w)))
  {
    if t.contexts[fd].events.Has(e) {
      SlotUpdate(t, fd, e, false, Cleared(), w);
      assert t.contexts[fd].Consistent();
    }
  }

  lemma AndTriggerKeeps<F, C>(r: Result<F, C>, fd: nat, e: Event, cond: bool, w: Waiter<F, C> -> nat)
    requires r.Done? && Slots(r.table) && fd < |r.table.contexts|
    ensures var r' := AndTrigger(r, fd, e, cond);
            && (r'.Done? <==> (cond ==> r.table.contexts[fd].events.Has(e)))
            && (r'.Done? ==>
                  && Slots(r'.table) && r'.ret == r.ret
                  && |r'.table.contexts| == |r.table.contexts|
                  && r'.table.interest == r.table.interest
                  && r'.table.contexts[fd].events
                       == (if cond then r.table.contexts[fd].events.Without(e) else r.table.contexts[fd].events)
                  && (forall i :: 0 <= i < |r.table.contexts| && i != fd
                       ==> r'.table.contexts[i] == r.table.contexts[i])
                  && Sum(r'.table.contexts, Weight(w)) + Sum(r'.woken, w)
                       == Sum(r.table.contexts, Weight(w)) + Sum(r.woken, w))
  {
    if cond {
      TriggerKeeps(r.table, fd, e, w);
      if r.table.contexts[fd].events.Has(e) {
        SumAppend(r.woken, Trigger(r.table, fd, e).woken, w);
      }
    }
  }

  /** addEvent succeeds iff the event is not registered yet and the kernel does not refuse for a reason of
      its own: the operation chosen is always legal and the assert on a blank slot never fires. */
  lemma AddEventKeeps<F, C>(t: Table<F, C>, fd: nat, e: Event, waiter: Waiter<F, C>, refused: bool,
      w: Waiter<F, C> -> nat)
    requires Agree(t)
    ensures var r := AddEvent(t, fd, e, waiter, refused);
            var t1 := EnsureContext(t, fd);
            && r.Done? && Agree(r.table) && r.woken == [] && fd < |r.table.contexts|
            && (r.ret <==> !t1.contexts[fd].events.Has(e) && !refused)
            && (!r.ret ==> r.table == t1)
            && (r.ret ==>
                  && r.table.contexts[fd].Slot(e).Target() == [waiter]
                  && r.table.contexts[fd].events == t1.contexts[fd].events.With(e))
            && Sum(r.table.contexts, Weight(w)) == Sum(t.contexts, Weight(w)) + (if r.ret then w(waiter) else 0)
  {
    hide EnsureContext, Weight, Sum, Mirror;
    EnsureContextKeeps(t, fd, w);
    var t1 := EnsureContext(t, fd);
    var ctx := t1.contexts[fd];
    assert ctx.Consistent();
    if !ctx.events.Has(e) && !refused {
      CtlIsLegal(t1, fd, ctx.events.With(e), refused);
      SlotUpdate(t1, fd, e, true, Filled(waiter), w);
      SingleWaiter(waiter, w);
      MirrorUpdate(t1, AddEvent(t, fd, e, waiter, refused).table, fd);
    }
  }

  lemma SingleWaiter<F, C>(waiter: Waiter<F, C>, w: Waiter<F, C> -> nat)
    ensures Filled(waiter).Target() == [waiter] && Sum([waiter], w) == w(waiter)
            && Sum(Cleared<F, C>().Target(), w) == 0
  {
    assert Sum([waiter], w) == w(waiter) + Sum([], w);
  }

  /** delEvent removes the registration and its waiter, which nobody gets. */
  lemma DelEventKeeps<F, C>(t: Table<F, C>, fd: nat, e: Event, refused: bool, w: Waiter<F, C> -> nat)
    requires Agree(t)
    ensures var r := DelEvent(t, fd, e, refused);
            && r.Done? && Agree(r.table) && r.woken == []
            && (r.ret <==> fd < |t.contexts| && t.contexts[fd].events.Has(e))
            && (!r.ret || refused ==> r.table == t)
            && (r.ret && !refused ==>
                  && fd < |r.table.contexts| && !r.table.contexts[fd].events.Has(e)
                  && Sum(r.table.contexts, Weight(w)) + Sum(t.contexts[fd].Slot(e).Target(), w)
                       == Sum(t.contexts, Weight(w)))
  {
    if fd < |t.contexts| && t.contexts[fd].events.Has(e) && !refused {
      CtlIsLegal(t, fd, t.contexts[fd].events.Without(e), refused);
      SlotUpdate(t, fd, e, false, Cleared(), w);
      MirrorUpdate(t, DelEvent(t, fd, e, refused).table, fd);
    }
  }

  /** cancelEvent moves the waiter to the scheduler instead; a refused epoll_ctl leaves everything as it was. */
  lemma CancelEventKeeps<F, C>(t: Table<F, C>, fd: nat, e: Event, refused: bool, w: Waiter<F, C> -> nat)
    requires Agree(t)
    ensures var r := CancelEvent(t, fd, e, refused);
            && r.Done? && Agree(r.table)
            && (r.ret <==> fd < |t.contexts| && t.contexts[fd].events.Has(e))
            && (!r.ret || refused ==> r.table == t && r.woken == [])
            && (r.ret && !refused ==>
                  && r.woken == t.contexts[fd].Slot(e).Target() && |r.woken| == 1
                  && fd < |r.table.contexts| && !r.table.contexts[fd].events.Has(e))
            && Sum(r.table.contexts, Weight(w)) + Sum(r.woken, w) == Sum(t.contexts, Weight(w))
  {
    if fd < |t.contexts| && t.contexts[fd].events.Has(e) && !refused {
      var left := t.contexts[fd].events.Without(e);
      CtlIsLegal(t, fd, left, refused);
      TriggerKeeps(t.(interest := Watching(t.interest, fd, left)), fd, e, w);
      MirrorUpdate(t, CancelEvent(t, fd, e, refused).table, fd);
    }
  }

  /** Two triggers on one fd after its interest was updated, as cancelAll and idle() perform them. */
  lemma TwoTriggersKeep<F, C>(t: Table<F, C>, fd: nat, interest: Interest, bits: Bits, w: Waiter<F, C> -> nat)
    requires Slots(t) && fd < |t.contexts|
    ensures var r1 := AndTrigger(Done(t.(interest := interest), [], true), fd, Read, bits.read);
            && (r1.Done? ==>
                  && |r1.table.contexts| == |t.contexts|
                  && r1.table.contexts[fd].events.write == t.contexts[fd].events.write)
            && var r2 := AndTrigger(r1, fd, Write, bits.write);
            && (r2.Done? <==> t.contexts[fd].events.And(bits) == bits)
            && (r2.Done? ==>
                  && Slots(r2.table) && r2.ret && |r2.table.contexts| == |t.contexts| && r2.table.interest == interest
                  && r2.table.contexts[fd].events == t.contexts[fd].events.Minus(bits)
                  && (forall i :: 0 <= i < |t.contexts| && i != fd ==> r2.table.contexts[i] == t.contexts[i])
                  && Sum(r2.table.contexts, Weight(w)) + Sum(r2.woken, w) == Sum(t.contexts, Weight(w)))
  {
    var r0 := Done(t.(interest := interest), [], true);
    AndTriggerKeeps(r0, fd, Read, bits.read, w);
    var r1 := AndTrigger(r0, fd, Read, bits.read);
    if r1.Done? {
      AndTriggerKeeps(r1, fd, Write, bits.write, w);
    }
  }

  /** cancelAll hands over every waiter of the fd and its final assert holds. */
  lemma CancelAllKeeps<F, C>(t: Table<F, C>, fd: nat, refused: bool, w: Waiter<F, C> -> nat)
    requires Agree(t)
    ensures var r := CancelAll(t, fd, refused);
            && r.Done? && Agree(r.table)
            && (r.ret <==> fd < |t.contexts| && !t.contexts[fd].events.Empty())
            && (!r.ret || refused ==> r.table == t && r.woken == [])
            && (r.ret && !refused ==> fd < |r.table.contexts| && r.table.contexts[fd].events.Empty())
            && Sum(r.table.contexts, Weight(w)) + Sum(r.woken, w) == Sum(t.contexts, Weight(w))
  {
    hide Slots, Mirror, Trigger;
    if fd < |t.contexts| && !t.contexts[fd].events.Empty() && !refused {
      CancelAllAccepted(t, fd);
      TwoTriggersKeep(t, fd, Watching(t.interest, fd, NoBits), t.contexts[fd].events, w);
      MirrorUpdate(t, CancelAll(t, fd, refused).table, fd);
    }
  }

  /** The dispatch of one report runs into a failing assert of triggerEvent iff the report is not fresh
      (and the kernel accepts the update); on a fresh report it keeps the agreement and hands over
      exactly the waiters of the registered events it names. */
  lemma DispatchKeeps<F, C>(t: Table<F, C>, r: Report, refused: bool, w: Waiter<F, C> -> nat)
    requires Agree(t) && r.fd < |t.contexts|
    ensures var d := Dispatch(t, r, refused);
            var hit := RealEvents(t.contexts[r.fd], r);
            && (d.Done? <==> Fresh(t, r) || refused)
            && (d.Done? ==>
                  && Agree(d.table) && |d.table.contexts| == |t.contexts|
                  && (refused ==> d.table == t && d.woken == [])
                  && (!refused ==> d.table.contexts[r.fd].events == t.contexts[r.fd].events.Minus(hit))
                  && (forall i :: 0 <= i < |t.contexts| && i != r.fd ==> d.table.contexts[i] == t.contexts[i])
                  && Sum(d.table.contexts, Weight(w)) + Sum(d.woken, w) == Sum(t.contexts, Weight(w)))
  {
    var ctx := t.contexts[r.fd];
    var hit := RealEvents(ctx, r);
    if !ctx.events.And(hit).Empty() && !refused {
      var left := ctx.events.Minus(hit);
      CtlIsLegal(t, r.fd, left, refused);
      TwoTriggersKeep(t, r.fd, Watching(t.interest, r.fd, left), hit, w);
      if Dispatch(t, r, refused).Done? {
        MirrorUpdate(t, Dispatch(t, r, refused).table, r.fd);
      }
    }
  }

  /** The same in terms of the report alone, with EPOLLERR and EPOLLHUP standing for whatever is registered: when the
      kernel accepts the update, an event is registered afterwards iff it was before and is not named, and the
      waiters of the events that went away, READ before WRITE, are what is scheduled. */
  lemma ReportTakesEvents<F, C>(t: Table<F, C>, r: Report)
    requires Agree(t) && r.fd < |t.contexts|
    ensures var d, ctx := Dispatch(t, r, false), t.contexts[r.fd];
            && (d.Done? <==>
                  || ((r.input ==> ctx.events.read) && (r.output ==> ctx.events.write))
                  || !((ctx.events.read && (r.input || r.error)) || (ctx.events.write && (r.output || r.error))))
            && (d.Done? ==>
                  var after := d.table.contexts[r.fd].events;
                  && (after.read <==> ctx.events.read && !r.input && !r.error)
                  && (after.write <==> ctx.events.write && !r.output && !r.error)
                  && d.woken == (if ctx.events.read && !after.read then ctx.read.Target() else [])
                                + (if ctx.events.write && !after.write then ctx.write.Target() else [])
                  && (r.error ==> after.Empty()))
  {
    hide Agree, TriggerBoth;
    DispatchKeeps(t, r, false, (x: Waiter<F, C>) => 0);
    DispatchAccepted(t, r);
    BothWaiters(t, r.fd, RealEvents(t.contexts[r.fd], r),
        Watching(t.interest, r.fd, t.contexts[r.fd].events.Minus(RealEvents(t.contexts[r.fd], r))));
  }

  lemma DispatchAccepted<F, C>(t: Table<F, C>, r: Report)
    requires Agree(t) && r.fd < |t.contexts|
    ensures var events, hit := t.contexts[r.fd].events, RealEvents(t.contexts[r.fd], r);
            Dispatch(t, r, false) == if events.And(hit).Empty() then Done(t, [], true)
                else TriggerBoth(
                  Done(t.(interest := Watching(t.interest, r.fd, events.Minus(hit))), [], true), r.fd, hit)
  {
    hide TriggerBoth;
    CtlIsLegal(t, r.fd, t.contexts[r.fd].events.Minus(RealEvents(t.contexts[r.fd], r)), false);
  }

  lemma BothWaiters<F, C>(t: Table<F, C>, fd: nat, bits: Bits, interest: Interest)
    requires fd < |t.contexts|
    ensures var r, ctx := TriggerBoth(Done(t.(interest := interest), [], true), fd, bits), t.contexts[fd];
            r.Done? ==>
              r.woken == (if bits.read then ctx.read.Target() else []) + (if bits.write then ctx.write.Target() else [])
  {
  }

  /** A dispatch leaves the interest in every other fd as it was. */
  lemma DispatchIsLocal<F, C>(t: Table<F, C>, r: Report, refused: bool, fd: nat)
    requires Agree(t) && r.fd < |t.contexts| && Dispatch(t, r, refused).Done? && fd != r.fd
    ensures var i := Dispatch(t, r, refused).table.interest;
            (fd in i <==> fd in t.interest) && (fd in i ==> i[fd] == t.interest[fd])
  {
    DispatchKeeps(t, r, refused, (x: Waiter<F, C>) => 0);
    var d := Dispatch(t, r, refused).table;
    assert fd < |t.contexts| ==> d.contexts[fd] == t.contexts[fd];
  }

  // ---------- who waits where ----------

  /** The fiber that waits for e on fd, if any. */
  function WaiterAt<F, C>(t: Table<F, C>, fd: nat, e: Event): Option<F> {
    if fd < |t.contexts| then t.contexts[fd].Slot(e).fiber else None
  }

  /** No fiber enters a slot. */
  ghost predicate NoNewWaiter<F, C>(t: Table<F, C>, t': Table<F, C>) {
    forall fd: nat, e :: WaiterAt(t', fd, e).Some? ==> WaiterAt(t, fd, e) == WaiterAt(t', fd, e)
  }

  /** addEvent stores its waiter in the one slot it registers, and leaves every other slot as it was. */
  lemma AddEventWaiters<F, C>(t: Table<F, C>, fd: nat, e: Event, waiter: Waiter<F, C>, refused: bool,
      fd': nat, e': Event)
    requires Agree(t)
    ensures var r := AddEvent(t, fd, e, waiter, refused);
            && r.Done?
            && (WaiterAt(r.table, fd', e')
                == if !r.ret || fd' != fd || e' != e then WaiterAt(t, fd', e') else Filled(waiter).fiber)
            && (r.ret ==> WaiterAt(t, fd, e).None?)
  {
    hide Agree, AddEvent, EnsureContext;
    EnsureContextKeeps(t, fd, (x: Waiter<F, C>) => 0);
    AddEventStores(t, fd, e, waiter, refused);
    GrowthHasNoWaiter(t, fd, fd', e');
    GrowthHasNoWaiter(t, fd, fd, e);
  }

  lemma AddEventStores<F, C>(t: Table<F, C>, fd: nat, e: Event, waiter: Waiter<F, C>, refused: bool)
    requires Agree(t)
    ensures var r, t1 := AddEvent(t, fd, e, waiter, refused), EnsureContext(t, fd);
            && r.Done? && fd < |t1.contexts|
            && (if r.ret then
                  && r.table.contexts == t1.contexts[fd := r.table.contexts[fd]]
                  && r.table.contexts[fd] == t1.contexts[fd].(events := t1.contexts[fd].events.With(e))
                       .WithSlot(e, Filled(waiter))
                  && t1.contexts[fd].Slot(e).Blank()
                else r.table == t1)
  {
    hide EnsureContext, Weight, Sum;
    EnsureContextKeeps(t, fd, (x: Waiter<F, C>) => 0);
    var t1 := EnsureContext(t, fd);
    CtlIsLegal(t1, fd, t1.contexts[fd].events.With(e), refused);
    assert t1.contexts[fd].Consistent();
  }

  lemma GrowthHasNoWaiter<F, C>(t: Table<F, C>, fd: nat, fd': nat, e': Event)
    requires Agree(t)
    ensures WaiterAt(EnsureContext(t, fd), fd', e') == WaiterAt(t, fd', e')
  {
  }

  /** The slots of these events of fd are empty, and every other slot is as it was. */
  ghost predicate Empties<F, C>(t: Table<F, C>, t': Table<F, C>, fd: nat, bits: Bits) {
    forall fd': nat, e ::
      WaiterAt(t', fd', e) == if fd' == fd && bits.Has(e) then None else WaiterAt(t, fd', e)
  }

  lemma EmptiesAddsNone<F, C>(t: Table<F, C>, t': Table<F, C>, fd: nat, bits: Bits)
    requires Empties(t, t', fd, bits)
    ensures NoNewWaiter(t, t')
  {
  }

  lemma SameWaiters<F, C>(t: Table<F, C>)
    ensures NoNewWaiter(t, t)
  {
  }

  /** An event that is not registered has an empty slot. */
  lemma UnregisteredIsEmpty<F, C>(t: Table<F, C>, fd: nat)
    requires Agree(t)
    ensures forall e :: !Registered(t, fd, e) ==> WaiterAt(t, fd, e).None?
  {
    assert fd < |t.contexts| ==> t.contexts[fd].Consistent();
  }

  function Only(e: Event): Bits {
    NoBits.With(e)
  }

  lemma DelEventWaiters<F, C>(t: Table<F, C>, fd: nat, e: Event, refused: bool)
    requires Agree(t)
    ensures var r := DelEvent(t, fd, e, refused);
            r.Done? && Empties(t, r.table, fd, if refused then NoBits else Only(e))
  {
    UnregisteredIsEmpty(t, fd);
    if Registered(t, fd, e) && !refused {
      CtlIsLegal(t, fd, t.contexts[fd].events.Without(e), refused);
    }
  }

  /** cancelEvent empties the slot unless the kernel refuses. */
  lemma CancelEventWaiters<F, C>(t: Table<F, C>, fd: nat, e: Event, refused: bool)
    requires Agree(t)
    ensures var r := CancelEvent(t, fd, e, refused);
            r.Done? && Empties(t, r.table, fd, if refused then NoBits else Only(e))
  {
    UnregisteredIsEmpty(t, fd);
    if Registered(t, fd, e) && !refused {
      CtlIsLegal(t, fd, t.contexts[fd].events.Without(e), refused);
    }
  }

  /** The two triggers of cancelAll and of a dispatch. */
  lemma TriggerBothWaiters<F, C>(t: Table<F, C>, fd: nat, bits: Bits, interest: Interest)
    requires fd < |t.contexts|
    ensures var r := TriggerBoth(Done(t.(interest := interest), [], true), fd, bits);
            r.Done? ==> Empties(t, r.table, fd, bits)
  {
    var r1 := AndTrigger(Done(t.(interest := interest), [], true), fd, Read, bits.read);
    if r1.Done? {
      OneTrigger(t, t.(interest := interest), fd, Read, bits.read);
      OneTrigger(r1.table, r1.table, fd, Write, bits.write);
    }
  }

  lemma OneTrigger<F, C>(t: Table<F, C>, t0: Table<F, C>, fd: nat, e: Event, cond: bool)
    requires fd < |t.contexts| && t0.contexts == t.contexts
    ensures var r := AndTrigger(Done(t0, [], true), fd, e, cond);
            r.Done? ==> |r.table.contexts| == |t.contexts| && Empties(t, r.table, fd, if cond then Only(e) else NoBits)
  {
  }

  /** cancelAll is the two triggers for what is registered. */
  lemma CancelAllAccepted<F, C>(t: Table<F, C>, fd: nat)
    requires Agree(t) && fd < |t.contexts| && !t.contexts[fd].events.Empty()
    ensures CancelAll(t, fd, false)
            == TriggerBoth(Done(t.(interest := t.interest - {fd}), [], true), fd, t.contexts[fd].events)
  {
    hide Slots, Mirror, Trigger;
    CtlIsLegal(t, fd, NoBits, false);
    TwoTriggersKeep(t, fd, t.interest - {fd}, t.contexts[fd].events, (x: Waiter<F, C>) => 0);
  }

  /** Unless the kernel refuses, cancelAll empties both slots of its fd and hands over their waiters, READ first. */
  lemma CancelAllWaiters<F, C>(t: Table<F, C>, fd: nat, refused: bool)
    requires Agree(t)
    ensures var r := CancelAll(t, fd, refused);
            && r.Done? && Empties(t, r.table, fd, if refused then NoBits else Bits(true, true))
            && r.woken == if refused || fd >= |t.contexts| then []
                 else (if t.contexts[fd].events.read then t.contexts[fd].read.Target() else [])
                      + (if t.contexts[fd].events.write then t.contexts[fd].write.Target() else [])
  {
    hide Agree, TriggerBoth;
    CancelAllKeeps(t, fd, refused, (x: Waiter<F, C>) => 0);
    UnregisteredIsEmpty(t, fd);
    if fd < |t.contexts| && !t.contexts[fd].events.Empty() && !refused {
      CancelAllAccepted(t, fd);
      BothWaiters(t, fd, t.contexts[fd].events, t.interest - {fd});
      TriggerBothWaiters(t, fd, t.contexts[fd].events, t.interest - {fd});
    }
  }

  /** What a report is about. */
  function Named(r: Report): Bits {
    Bits(r.input || r.error, r.output || r.error)
  }

  lemma DispatchWaiters<F, C>(t: Table<F, C>, r: Report, refused: bool)
    requires Agree(t) && r.fd < |t.contexts| && Dispatch(t, r, refused).Done?
    ensures Empties(t, Dispatch(t, r, refused).table, r.fd, if refused then NoBits else Named(r))
  {
    hide Agree, TriggerBoth, Dispatch;
    UnregisteredIsEmpty(t, r.fd);
    if refused {
      DispatchKeeps(t, r, refused, (x: Waiter<F, C>) => 0);
    } else {
      var hit := RealEvents(t.contexts[r.fd], r);
      DispatchAccepted(t, r);
      TriggerBothWaiters(t, r.fd, hit, Watching(t.interest, r.fd, t.contexts[r.fd].events.Minus(hit)));
    }
  }

  /** The table never shrinks. */
  predicate NotSmaller<F, C>(t: Table<F, C>, r: Result<F, C>) {
    r.Done? ==> |r.table.contexts| >= |t.contexts|
  }

  lemma AddEventNotSmaller<F, C>(t: Table<F, C>, fd: nat, e: Event, waiter: Waiter<F, C>, refused: bool)
    requires |t.contexts| >= InitialSize
    ensures NotSmaller(t, AddEvent(t, fd, e, waiter, refused))
  {
  }

  lemma OthersNotSmaller<F, C>(t: Table<F, C>, fd: nat, e: Event, refused: bool)
    ensures NotSmaller(t, DelEvent(t, fd, e, refused)) && NotSmaller(t, CancelEvent(t, fd, e, refused))
    ensures NotSmaller(t, CancelAll(t, fd, refused))
  {
  }

  lemma DispatchNotSmaller<F, C>(t: Table<F, C>, r: Report, refused: bool)
    requires r.fd < |t.contexts|
    ensures NotSmaller(t, Dispatch(t, r, refused))
  {
  }

  /** Continues a result with the dispatch of one more report. */
  function AndDispatch<F, C>(r: Result<F, C>, report: Report, refused: bool): Result<F, C> {
    if r.AssertFailed? || report.fd >= |r.table.contexts| then AssertFailed
    else match Dispatch(r.table, report, refused)
      case AssertFailed => AssertFailed
      case Done(t, woken, _) => Done(t, r.woken + woken, r.ret)
  }

  /** The dispatch loop of idle() after the first i reports. */
  function DispatchUpTo<F, C>(t: Table<F, C>, reports: seq<Report>, refusals: seq<bool>, i: nat): Result<F, C>
    requires i <= |reports| == |refusals|
  {
    if i == 0 then Done(t, [], true)
    else AndDispatch(DispatchUpTo(t, reports, refusals, i - 1), reports[i - 1], refusals[i - 1])
  }

  lemma {:induction false} DispatchPrefixDone<F, C>(
      t: Table<F, C>, reports: seq<Report>, refusals: seq<bool>, i: nat, n: nat)
    requires i <= n <= |reports| == |refusals| && DispatchUpTo(t, reports, refusals, n).Done?
    ensures DispatchUpTo(t, reports, refusals, i).Done?
    decreases n - i
  {
    if i < n {
      DispatchPrefixDone(t, reports, refusals, i + 1, n);
    }
  }

  /** The reports name each fd once and only bits that are watched. */
  predicate Reportable(interest: Interest, reports: seq<Report>) {
    && (forall i :: 0 <= i < |reports| ==>
          && reports[i].fd in interest
          && (reports[i].input ==> interest[reports[i].fd].read)
          && (reports[i].output ==> interest[reports[i].fd].write))
    && (forall i, j :: 0 <= i < j < |reports| ==> reports[i].fd != reports[j].fd)
  }

  /** When nobody else touches the table between epoll_wait and the end of the loop, every report is fresh when its turn
      comes: the loop meets no failing assert, keeps the agreement and hands over what it takes out. */
  lemma DispatchNextKeeps<F, C>(r: Result<F, C>, report: Report, refused: bool, w: Waiter<F, C> -> nat)
    requires r.Done? && Agree(r.table) && report.fd in r.table.interest
    requires (report.input ==> r.table.interest[report.fd].read)
             && (report.output ==> r.table.interest[report.fd].write)
    ensures var d := AndDispatch(r, report, refused);
            && d.Done? && Agree(d.table)
            && (forall fd: nat :: fd != report.fd && fd in r.table.interest
                 ==> fd in d.table.interest && d.table.interest[fd] == r.table.interest[fd])
            && Sum(d.table.contexts, Weight(w)) + Sum(d.woken, w) == Sum(r.table.contexts, Weight(w)) + Sum(r.woken, w)
  {
    DispatchKeeps(r.table, report, refused, w);
    SumAppend(r.woken, Dispatch(r.table, report, refused).woken, w);
    forall fd: nat | fd != report.fd && fd in r.table.interest
      ensures fd in Dispatch(r.table, report, refused).table.interest
              && Dispatch(r.table, report, refused).table.interest[fd] == r.table.interest[fd]
    {
      DispatchIsLocal(r.table, report, refused, fd);
    }
  }

  lemma {:induction false} DispatchLoopKeeps<F, C>(
      t: Table<F, C>, reports: seq<Report>, refusals: seq<bool>, i: nat, w: Waiter<F, C> -> nat)
    requires Agree(t) && i <= |reports| == |refusals| && Reportable(t.interest, reports)
    ensures var d := DispatchUpTo(t, reports, refusals, i);
            && d.Done? && Agree(d.table)
            && (forall j :: i <= j < |reports| ==>
                  reports[j].fd in d.table.interest && d.table.interest[reports[j].fd] == t.interest[reports[j].fd])
            && Sum(d.table.contexts, Weight(w)) + Sum(d.woken, w) == Sum(t.contexts, Weight(w))
  {
    hide AndDispatch, Agree, Weight;
    if i > 0 {
      DispatchLoopKeeps(t, reports, refusals, i - 1, w);
      DispatchNextKeeps(DispatchUpTo(t, reports, refusals, i - 1), reports[i - 1], refusals[i - 1], w);
    }
  }
}
