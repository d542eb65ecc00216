// The fd table of FdManager: a vector indexed by fd that grows and never shrinks, seen as a map.

module FdTable {
  import opened Base

  /** The context of one fd. A timeout of 2^64 - 1 means none. */
  class FdCtx {
    const fd: int
    var isInit: bool
    var isSocket: bool
    var sysNonblock: bool
    var userNonblock: bool
    var isClosed: bool
    var recvTimeout: int
    var sendTimeout: int

    /** FdCtx(fd) up to its call of fstat: `socket` is what fstat reports, None when it fails. */
    constructor (fd: int, socket: Option<bool>)
      ensures this.fd == fd && isInit == socket.Some? && isSocket == (socket == Some(true)) && sysNonblock == isSocket
      ensures !userNonblock && !isClosed && recvTimeout == NO_TIMEOUT && sendTimeout == NO_TIMEOUT
    {
      this.fd := fd;
      isInit := socket.Some?;
      isSocket := socket == Some(true);
      sysNonblock := socket == Some(true);
      userNonblock, isClosed := false, false;
      recvTimeout, sendTimeout := NO_TIMEOUT, NO_TIMEOUT;
    }
  }

  const NO_TIMEOUT: int := 0xFFFF_FFFF_FFFF_FFFF

  // ---------- the table as a value ----------

  const INITIAL_SLOTS: nat := 64

  /** A slot with no context is None. */
  type Slots<C> = seq<Option<C>>

  ghost function AsMap<C>(s: Slots<C>): map<int, C> {
    map fd | 0 <= fd < |s| && s[fd].Some? :: s[fd].value
  }

  /** m_datas.size() <= fd: a negative fd is compared as a very large unsigned number. */
  predicate Beyond<C>(s: Slots<C>, fd: int) {
    fd < 0 || |s| <= fd
  }

  function Lookup<C>(s: Slots<C>, fd: int): Option<C> {
    if fd == -1 || Beyond(s, fd) then None else s[fd]
  }

  /** vector::resize: shortens or adds empty slots. */
  function Resize<C>(s: Slots<C>, n: nat): (r: Slots<C>)
    ensures |r| == n && forall i :: 0 <= i < n ==> r[i] == if i < |s| then s[i] else None
  {
    if n <= |s| then s[..n] else s + seq(n - |s|, i => None)
  }

  /** The size a table grows to for an fd beyond it: fd * 1.5, truncated. */
  function GrownSize(fd: nat): nat {
    fd * 3 / 2
  }

  /** The table with a context stored at fd, after growing when needed; None when fd is still not a slot. */
  function Store<C>(s: Slots<C>, fd: nat, c: C): Option<Slots<C>> {
    var grown := if |s| <= fd then Resize(s, GrownSize(fd)) else s;
    if fd < |grown| then Some(grown[fd := Some(c)]) else None
  }

  function Delete<C>(s: Slots<C>, fd: int): Slots<C> {
    if Beyond(s, fd) then s else s[fd := None]
  }

  lemma LookupIsTheMap<C>(s: Slots<C>, fd: int)
    ensures Lookup(s, fd) == if fd in AsMap(s) then Some(AsMap(s)[fd]) else None
  {
  }

  /** Growth by half makes fd a slot exactly when there was one already or fd is at least 2; then it
      loses no slot and the map changes at fd alone. */
  lemma StoreIsTheMap<C>(s: Slots<C>, fd: nat, c: C)
    ensures Store(s, fd, c).Some? <==> fd < |s| || fd >= 2
    ensures Store(s, fd, c).Some? ==>
              && |s| <= |Store(s, fd, c).value| && AsMap(Store(s, fd, c).value) == AsMap(s)[fd := c]
              && var n := |Store(s, fd, c).value|; if fd < |s| then n == |s| else 2 * n <= 3 * fd < 2 * n + 2
  {
    if Store(s, fd, c).Some? {
      var s' := Store(s, fd, c).value;
      assert forall i :: 0 <= i < |s'| ==> s'[i] == if i == fd then Some(c) else if i < |s| then s[i] else None;
    }
  }

  lemma DeleteIsTheMap<C>(s: Slots<C>, fd: int)
    ensures |Delete(s, fd)| == |s| && AsMap(Delete(s, fd)) == AsMap(s) - {fd}
  {
  }

  // ---------- whole runs ----------

  /** A use of the table; OpGet with `make` is get(fd, true), and c the context it would create. */
  datatype TableOp<C> = OpGet(fd: int) | OpMake(made: nat, c: C) | OpDel(fd: int)

  /** One operation on the vector: the new table and what get returns. None when it writes past the end. */
  function Apply<C>(s: Slots<C>, op: TableOp<C>): Option<(Slots<C>, Option<C>)> {
    match op
    case OpGet(fd) => Some((s, Lookup(s, fd)))
    case OpMake(fd, c) =>
      if Lookup(s, fd).Some? then Some((s, Lookup(s, fd)))
      else if Store(s, fd, c).None? then None
      else Some((Store(s, fd, c).value, Some(c)))
    case OpDel(fd) => Some((Delete(s, fd), None))
  }

  /** The same on a partial map. */
  function ApplyToMap<C>(m: map<int, C>, op: TableOp<C>): (map<int, C>, Option<C>) {
    match op
    case OpGet(fd) => (m, if fd in m then Some(m[fd]) else None)
    case OpMake(fd, c) => if fd in m then (m, Some(m[fd])) else (m[fd := c], Some(c))
    case OpDel(fd) => (m - {fd}, None)
  }

  /** What the gets of a run return, on the vector and on the map. */
  function Results<C>(s: Slots<C>, run: seq<TableOp<C>>): Option<seq<Option<C>>>
    decreases |run|
  {
    if run == [] then Some([])
    else
      var r := Apply(s, run[0]);
      if r.None? then None
      else
        var rest := Results(r.value.0, run[1..]);
        if rest.None? then None else Some([r.value.1] + rest.value)
  }

  function MapResults<C>(m: map<int, C>, run: seq<TableOp<C>>): seq<Option<C>>
    decreases |run|
  {
    if run == [] then [] else [ApplyToMap(m, run[0]).1] + MapResults(ApplyToMap(m, run[0]).0, run[1..])
  }

  /** Every run of get and del on the vector is a run on a partial map from fd to context: it never
      writes past the end and every get returns what the map has. */
  lemma {:induction false} TableRefinesMap<C>(s: Slots<C>, run: seq<TableOp<C>>)
    requires |s| >= 2
    ensures Results(s, run) == Some(MapResults(AsMap(s), run))
    decreases |run|
  {
    if run != [] {
      var op := run[0];
      ApplyIsTheMap(s, op);
      TableRefinesMap(Apply(s, op).value.0, run[1..]);
    }
  }

  lemma ApplyIsTheMap<C>(s: Slots<C>, op: TableOp<C>)
    requires |s| >= 2
    ensures Apply(s, op).Some? && |Apply(s, op).value.0| >= |s|
    ensures (AsMap(Apply(s, op).value.0), Apply(s, op).value.1) == ApplyToMap(AsMap(s), op)
  {
    match op {
      case OpGet(fd) => LookupIsTheMap(s, fd);
      case OpMake(fd, c) =>
        LookupIsTheMap(s, fd);
        StoreIsTheMap(s, fd, c);
      case OpDel(fd) => DeleteIsTheMap(s, fd);
    }
  }

  /** From the table a process starts with. */
  lemma FreshTableRefinesMap<C>(run: seq<TableOp<C>>)
    ensures Results(seq(INITIAL_SLOTS, i => None), run) == Some(MapResults<C>(map[], run))
  {
    var s: Slots<C> := seq(INITIAL_SLOTS, i => None);
    TableRefinesMap(s, run);
    assert AsMap(s) == map[];
  }

  // ---------- the two halves of get(fd, true) ----------

  /** get(fd, true) decides under the read lock and stores under the write lock, without looking again:
      every context that is in the table by then survives iff none was stored at fd in between. */
  lemma StoreWithoutLookingAgain<C>(s: Slots<C>, fd: nat, c: C)
    requires |s| >= 2
    ensures Store(s, fd, c).Some?
    ensures (forall g :: g in AsMap(s) ==>
               g in AsMap(Store(s, fd, c).value) && AsMap(Store(s, fd, c).value)[g] == AsMap(s)[g])
            <==> Lookup(s, fd) in {None, Some(c)}
  {
    StoreIsTheMap(s, fd, c);
    LookupIsTheMap(s, fd);
  }

  // ---------- FdManager ----------

  class FdManager {
    var datas: seq<Option<FdCtx>>

    ghost predicate Valid()
      reads this
    {
      |datas| >= INITIAL_SLOTS
    }

    constructor ()
      ensures Valid() && AsMap(datas) == map[] && |datas| == 64
    {
      datas := seq(INITIAL_SLOTS, i => None);
    }

    /** get: the source demands that an fd below -1 is not asked to be created. */
    method Get(fd: int, autoCreate: bool, socket: Option<bool>) returns (r: Option<FdCtx>)
      requires Valid() && (autoCreate ==> fd >= -1)
      modifies this
      ensures Valid() && |datas| >= |old(datas)|
      ensures fd in old(AsMap(datas)) ==> r == Some(old(AsMap(datas))[fd]) && datas == old(datas)
      ensures fd !in old(AsMap(datas)) && (!autoCreate || fd == -1) ==> r == None && datas == old(datas)
      ensures fd !in old(AsMap(datas)) && autoCreate && fd != -1 ==>
                && r.Some? && fresh(r.value) && r.value.fd == fd
                && r.value.isInit == socket.Some? && r.value.isSocket == (socket == Some(true))
                && r.value.sysNonblock == r.value.isSocket && !r.value.userNonblock && !r.value.isClosed
                && r.value.recvTimeout == NO_TIMEOUT && r.value.sendTimeout == NO_TIMEOUT
                && AsMap(datas) == old(AsMap(datas))[fd := r.value]
    {
      if fd == -1 {
        return None;
      }
      if fd < 0 || |datas| <= fd {
        if !autoCreate {
          return None;
        }
      } else if datas[fd].Some? || !autoCreate {
        return datas[fd];
      }
      var c := new FdCtx(fd, socket);
      StoreIsTheMap(datas, fd, c);
      if |datas| <= fd {
        datas := Resize(datas, GrownSize(fd));
      }
      datas := datas[fd := Some(c)];
      return Some(c);
    }

    method Del(fd: int)
      requires Valid()
      modifies this
      ensures Valid() && |datas| == |old(datas)| && AsMap(datas) == old(AsMap(datas)) - {fd}
    {
      DeleteIsTheMap(datas, fd);
      if fd < 0 || |datas| <= fd {
        return;
      }
      datas := datas[fd := None];
    }
  }
}
