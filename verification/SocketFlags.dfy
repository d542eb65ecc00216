// fcntl and ioctl on a socket: the user's view of O_NONBLOCK is kept apart from the kernel's flag.

module SocketFlags {
  import opened Base
  import opened FdTable

  /** A word of file status flags, as the set of the positions of its bits that are 1. */
  type Word = set<nat>

  /** 0x800 */
  const O_NONBLOCK: nat := 11

  /** The flags F_SETFL can change on Linux: O_APPEND, O_NONBLOCK, O_ASYNC, O_DIRECT and O_NOATIME. */
  const SETTABLE: Word := {10, 11, 13, 14, 18}

  /** F_SETFL of the kernel. */
  function KernelSet(flags: Word, arg: Word): Word {
    (flags - SETTABLE) + (arg * SETTABLE)
  }

  function With(flags: Word, nonblock: bool): Word {
    if nonblock then flags + {O_NONBLOCK} else flags - {O_NONBLOCK}
  }

  predicate IsNonblock(flags: Word) {
    O_NONBLOCK in flags
  }

  // ---------- the calls as functions ----------

  datatype Command = SetFl(arg: Word) | GetFl | FionBio(on: bool)

  /** A tracked socket: the kernel's flags and the two marks of its context. */
  datatype Tracked = Tracked(kernel: Word, sys: bool, user: bool)

  /** FdCtx::init on a socket that was created with flags k. */
  function Init(k: Word): Tracked {
    Tracked(if IsNonblock(k) then k else KernelSet(k, With(k, true)), true, false)
  }

  function Apply(t: Tracked, c: Command): (Tracked, Option<Word>) {
    match c
    case SetFl(arg) => (Tracked(KernelSet(t.kernel, With(arg, t.sys)), t.sys, IsNonblock(arg)), None)
    case GetFl => (t, Some(With(t.kernel, t.user)))
    case FionBio(on) => (Tracked(With(t.kernel, on), t.sys, on), None)
  }

  /** The same calls on a socket that nobody tracks. */
  function ApplyPlain(k: Word, c: Command): (Word, Option<Word>) {
    match c
    case SetFl(arg) => (KernelSet(k, arg), None)
    case GetFl => (k, Some(k))
    case FionBio(on) => (With(k, on), None)
  }

  /** What F_GETFL shows during a run. */
  function Seen(t: Tracked, run: seq<Command>): seq<Word>
    decreases |run|
  {
    if run == [] then []
    else
      var (t', shown) := Apply(t, run[0]);
      (if shown.Some? then [shown.value] else []) + Seen(t', run[1..])
  }

  function SeenPlain(k: Word, run: seq<Command>): seq<Word>
    decreases |run|
  {
    if run == [] then []
    else
      var (k', shown) := ApplyPlain(k, run[0]);
      (if shown.Some? then [shown.value] else []) + SeenPlain(k', run[1..])
  }

  function Final(t: Tracked, run: seq<Command>): Tracked
    decreases |run|
  {
    if run == [] then t else Final(Apply(t, run[0]).0, run[1..])
  }

  // ---------- a tracked socket looks like a plain one ----------

  /** The flags agree but for O_NONBLOCK, which the user's mark stands for. */
  ghost predicate LooksLike(t: Tracked, k: Word) {
    With(t.kernel, t.user) == k
  }

  lemma ApplyLooksLike(t: Tracked, k: Word, c: Command)
    requires LooksLike(t, k)
    ensures LooksLike(Apply(t, c).0, ApplyPlain(k, c).0) && Apply(t, c).1 == ApplyPlain(k, c).1
  {
    if !c.GetFl? {
      assert With(t.kernel, false) == With(k, false);
      SettingLooksLike(t, k, c);
    }
  }

  /** Whatever the user's mark was, a command that sets the flag brings the two together. */
  lemma SettingLooksLike(t: Tracked, k: Word, c: Command)
    requires With(t.kernel, false) == With(k, false) && !c.GetFl?
    ensures LooksLike(Apply(t, c).0, ApplyPlain(k, c).0)
  {
    assert forall i :: i != O_NONBLOCK ==> (i in t.kernel <==> i in With(t.kernel, false));
    assert forall i :: i != O_NONBLOCK ==> (i in k <==> i in With(k, false));
    var flags := Apply(t, c).0;
    assert forall i :: i in With(flags.kernel, flags.user) <==> i in ApplyPlain(k, c).0;
  }

  lemma {:induction false} SeenAlike(t: Tracked, k: Word, run: seq<Command>)
    requires LooksLike(t, k)
    ensures Seen(t, run) == SeenPlain(k, run)
    decreases |run|
  {
    if run != [] {
      ApplyLooksLike(t, k, run[0]);
      SeenAlike(Apply(t, run[0]).0, ApplyPlain(k, run[0]).0, run[1..]);
    }
  }

  /** Any run of F_SETFL, F_GETFL and FIONBIO shows the same flags as on a plain socket if and only if
      the socket was created blocking or the run does not start by looking. */
  lemma VirtualFlagsAreFaithful(k: Word, run: seq<Command>)
    ensures Seen(Init(k), run) == SeenPlain(k, run) <==> !IsNonblock(k) || run == [] || !run[0].GetFl?
  {
    InitFlags(k);
    if !IsNonblock(k) {
      SeenAlike(Init(k), k, run);
    } else if run != [] {
      if run[0].GetFl? {
        assert Seen(Init(k), run)[0] == With(Init(k).kernel, false);
        assert SeenPlain(k, run)[0] == k;
      } else {
        SettingLooksLike(Init(k), k, run[0]);
        SeenAlike(Apply(Init(k), run[0]).0, ApplyPlain(k, run[0]).0, run[1..]);
      }
    }
  }

  lemma InitFlags(k: Word)
    ensures With(Init(k).kernel, false) == With(k, false) && IsNonblock(Init(k).kernel)
    ensures !IsNonblock(k) ==> LooksLike(Init(k), k)
  {
    assert forall i :: i in With(Init(k).kernel, false) <==> i in With(k, false);
  }

  // ---------- the kernel's flag ----------

  /** The last command of a run that sets a flag is FIONBIO with 0. */
  predicate EndsCleared(run: seq<Command>)
    decreases |run|
  {
    run != [] && (run[|run| - 1] == FionBio(false) || (run[|run| - 1] == GetFl && EndsCleared(run[..|run| - 1])))
  }

  lemma {:induction false} FinalSnoc(t: Tracked, run: seq<Command>, c: Command)
    ensures Final(t, run + [c]) == Apply(Final(t, run), c).0
    decreases |run|
  {
    if run == [] {
      assert ([c])[1..] == [];
    } else {
      FinalSnoc(Apply(t, run[0]).0, run[1..], c);
      assert (run + [c])[1..] == run[1..] + [c];
    }
  }

  /** From init on, the kernel keeps the socket non-blocking if and only if the last command that sets a flag
      is not FIONBIO with 0; so runs of F_SETFL and F_GETFL alone always leave it non-blocking. */
  lemma {:induction false} KernelStaysNonblocking(k: Word, run: seq<Command>)
    ensures Final(Init(k), run).sys
    ensures IsNonblock(Final(Init(k), run).kernel) <==> !EndsCleared(run)
    decreases |run|
  {
    hide KernelSet, With;
    InitFlags(k);
    if run != [] {
      var front, last := run[..|run| - 1], run[|run| - 1];
      KernelStaysNonblocking(k, front);
      FinalSnoc(Init(k), front, last);
      assert run == front + [last];
      KernelAfter(Final(Init(k), front), last);
    }
  }

  lemma KernelAfter(t: Tracked, c: Command)
    requires t.sys
    ensures IsNonblock(Apply(t, c).0.kernel) == match c
              case SetFl(_) => true
              case GetFl => IsNonblock(t.kernel)
              case FionBio(on) => on
  {
  }

  lemma {:induction false} NoFionBioNeverCleared(run: seq<Command>)
    requires forall i :: 0 <= i < |run| ==> !run[i].FionBio?
    ensures !EndsCleared(run)
    decreases |run|
  {
    if run != [] {
      NoFionBioNeverCleared(run[..|run| - 1]);
    }
  }

  // ---------- the hooked calls ----------

  /** The kernel's side of an open socket. */
  class OpenFile {
    var flags: Word

    constructor (flags: Word)
      ensures this.flags == flags
    {
      this.flags := flags;
    }
  }

  ghost function View(ctx: FdCtx, file: OpenFile): Tracked
    reads ctx, file
  {
    Tracked(file.flags, ctx.sysNonblock, ctx.userNonblock)
  }

  predicate IsTracked(ctx: FdCtx?)
    reads ctx
  {
    ctx != null && !ctx.isClosed && ctx.isSocket
  }

  /** The part of FdCtx::init that makes a socket non-blocking. */
  method InitSocket(fd: int, file: OpenFile) returns (ctx: FdCtx)
    modifies file
    ensures fresh(ctx) && View(ctx, file) == Init(old(file.flags)) && IsTracked(ctx)
  {
    ctx := new FdCtx(fd, Some(true));
    if !IsNonblock(file.flags) {
      file.flags := KernelSet(file.flags, With(file.flags, true));
    }
  }

  method FcntlSetFl(ctx: FdCtx?, file: OpenFile, arg: Word)
    modifies file, if ctx == null then {} else {ctx}
    ensures IsTracked(ctx) == old(IsTracked(ctx))
    ensures IsTracked(ctx) ==> View(ctx, file) == Apply(old(View(ctx, file)), SetFl(arg)).0
    ensures old(ctx == null || ctx.isClosed || !ctx.isSocket)
            ==> file.flags == ApplyPlain(old(file.flags), SetFl(arg)).0
                && (ctx != null ==> ctx.userNonblock == old(ctx.userNonblock))
  {
    if ctx == null || ctx.isClosed || !ctx.isSocket {
      file.flags := KernelSet(file.flags, arg);
      return;
    }
    ctx.userNonblock := IsNonblock(arg);
    var passed := arg;
    if ctx.sysNonblock {
      passed := With(passed, true);
    } else {
      passed := With(passed, false);
    }
    file.flags := KernelSet(file.flags, passed);
  }

  method FcntlGetFl(ctx: FdCtx?, file: OpenFile) returns (flags: Word)
    ensures IsTracked(ctx) ==> Some(flags) == Apply(View(ctx, file), GetFl).1
    ensures ctx == null || ctx.isClosed || !ctx.isSocket ==> Some(flags) == ApplyPlain(file.flags, GetFl).1
  {
    flags := file.flags;
    if ctx == null || ctx.isClosed || !ctx.isSocket {
      return;
    }
    if ctx.userNonblock {
      flags := With(flags, true);
    } else {
      flags := With(flags, false);
    }
  }

  /** ioctl with FIONBIO: the argument goes on to the kernel as it is. */
  method IoctlFionBio(ctx: FdCtx?, file: OpenFile, arg: int)
    modifies file, if ctx == null then {} else {ctx}
    ensures IsTracked(ctx) == old(IsTracked(ctx))
    ensures IsTracked(ctx) ==> View(ctx, file) == Apply(old(View(ctx, file)), FionBio(arg != 0)).0
    ensures old(ctx == null || ctx.isClosed || !ctx.isSocket)
            ==> file.flags == ApplyPlain(old(file.flags), FionBio(arg != 0)).0
                && (ctx != null ==> ctx.userNonblock == old(ctx.userNonblock))
  {
    if ctx != null && !ctx.isClosed && ctx.isSocket {
      ctx.userNonblock := arg != 0;
    }
    file.flags := With(file.flags, arg != 0);
  }
}
