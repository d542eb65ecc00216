// Setting and reading a socket's timeouts: milliseconds become a timeval and, in the hooked setsockopt,
// milliseconds again.

module SocketTimeout {
  import opened Base
  import opened FdTable

  /** Division of C++: towards zero, the remainder with the sign of the dividend. */
  function Quotient(a: int, b: int): int
    requires b > 0
  {
    if a >= 0 then a / b else -(-a / b)
  }

  function Remainder(a: int, b: int): int
    requires b > 0
  {
    a - b * Quotient(a, b)
  }

  const TWO_31: int := 0x8000_0000
  const TWO_32: int := 0x1_0000_0000
  const TWO_63: int := 0x8000_0000_0000_0000
  const TWO_64: int := 0x1_0000_0000_0000_0000

  type Int64 = x: int | -TWO_63 <= x < TWO_63

  function ToInt32(x: int): int {
    (x + TWO_31) % TWO_32 - TWO_31
  }

  function ToUint64(x: int): int {
    x % TWO_64
  }

  function ToInt64(x: int): Int64 {
    (x + TWO_63) % TWO_64 - TWO_63
  }

  datatype TimeVal = TimeVal(sec: int, usec: int)

  /** The timeval of setSendTimeout and setRecvTimeout: both fields go through int. */
  function FromMillis(v: Int64): TimeVal {
    TimeVal(ToInt32(Quotient(v, 1000)), ToInt32(Remainder(v, 1000) * 1000))
  }

  /** What setsockopt hands to FdCtx::setTimeout. */
  function Millis(tv: TimeVal): int {
    ToUint64(tv.sec * 1000 + Quotient(tv.usec, 1000))
  }

  /** The whole milliseconds of any proper timeval, as long as they fit 64 bits. */
  lemma MillisAreWhole(tv: TimeVal)
    requires 0 <= tv.sec && 0 <= tv.usec < 1_000_000 && tv.sec * 1_000_000 + tv.usec < 1000 * TWO_64
    ensures Millis(tv) * 1000 <= tv.sec * 1_000_000 + tv.usec < (Millis(tv) + 1) * 1000
  {
  }

  // ---------- what comes back ----------

  /** The value that is stored is v, up to a multiple of 1000 * 2^32 milliseconds. */
  lemma StoredValue(v: Int64)
    ensures var q := Quotient(v, 1000);
            Millis(FromMillis(v)) == ToUint64(ToInt32(q) * 1000 + Remainder(v, 1000))
    ensures ToInt64(Millis(FromMillis(v))) == ToInt32(Quotient(v, 1000)) * 1000 + Remainder(v, 1000)
  {
    var q, r := Quotient(v, 1000), Remainder(v, 1000);
    assert -1000 < r < 1000;
    assert ToInt32(r * 1000) == r * 1000;
    assert Quotient(r * 1000, 1000) == r;
  }

  /** Reading a timeout gives back what was set if and only if its whole seconds fit an int, whether it
      is positive or negative. */
  lemma RoundTrip(v: Int64)
    ensures ToInt64(Millis(FromMillis(v))) == v <==> -TWO_31 <= Quotient(v, 1000) < TWO_31
  {
    hide FromMillis;
    StoredValue(v);
    assert v == Quotient(v, 1000) * 1000 + Remainder(v, 1000);
  }

  /** A timeout counts as none if and only if it is -1, or -1 up to a multiple of 1000 * 2^32. */
  lemma NoTimeoutIff(v: Int64)
    ensures Millis(FromMillis(v)) == NO_TIMEOUT <==> (v + 1) % (1000 * TWO_32) == 0
  {
    StoredValue(v);
    var q, r := Quotient(v, 1000), Remainder(v, 1000);
    var w, turns := ToInt32(q), (q + TWO_31) / TWO_32;
    assert -1000 < r < 1000 && q == w + turns * TWO_32;
    var x := w * 1000 + r + 1;
    assert v + 1 == x + turns * (1000 * TWO_32);
    hide Quotient, Remainder, Millis, FromMillis, ToInt32;
    Shifted(x, turns);
  }

  /** A value smaller than 1000 * 2^32 is 0 modulo that number only when it is 0, whatever multiple is added. */
  lemma Shifted(x: int, turns: int)
    requires -1000 * TWO_32 < x < 1000 * TWO_32
    ensures (x + turns * (1000 * TWO_32)) % (1000 * TWO_32) == 0 <==> x == 0
  {
  }

  // ---------- the setters and getters ----------

  datatype Direction = Recv | Send

  /** FdCtx::getTimeout. */
  ghost function Stored(ctx: FdCtx, d: Direction): int
    reads ctx
  {
    if d.Recv? then ctx.recvTimeout else ctx.sendTimeout
  }

  ghost function Other(d: Direction): Direction {
    if d.Recv? then Send else Recv
  }

  /** The hooked setsockopt with SO_RCVTIMEO or SO_SNDTIMEO, and FdCtx::setTimeout. */
  method SetSockOpt(hooked: bool, ctx: Option<FdCtx>, d: Direction, tv: TimeVal)
    modifies if ctx.Some? then {ctx.value} else {}
    ensures ctx.Some? ==> Stored(ctx.value, d) == if hooked then Millis(tv) else old(Stored(ctx.value, d))
    ensures ctx.Some? ==> Stored(ctx.value, Other(d)) == old(Stored(ctx.value, Other(d)))
  {
    if !hooked {
      return;
    }
    if ctx.Some? {
      if d.Recv? {
        ctx.value.recvTimeout := Millis(tv);
      } else {
        ctx.value.sendTimeout := Millis(tv);
      }
    }
  }

  class Socket {
    const sock: int
    const table: FdManager

    constructor (sock: int, table: FdManager)
      ensures this.sock == sock && this.table == table
    {
      this.sock := sock;
      this.table := table;
    }

    ghost function Ctx(): Option<FdCtx>
      reads table
    {
      if sock in AsMap(table.datas) then Some(AsMap(table.datas)[sock]) else None
    }

    /** setRecvTimeout and setSendTimeout. */
    method SetTimeout(hooked: bool, d: Direction, v: Int64)
      requires table.Valid()
      modifies table, if Ctx().Some? then {Ctx().value} else {}
      ensures table.Valid() && table.datas == old(table.datas)
      ensures Ctx().Some? && hooked ==> Stored(Ctx().value, d) == Millis(FromMillis(v))
      ensures Ctx().Some? && !hooked ==> Stored(Ctx().value, d) == old(Stored(Ctx().value, d))
      ensures Ctx().Some? ==> Stored(Ctx().value, Other(d)) == old(Stored(Ctx().value, Other(d)))
    {
      var ctx := table.Get(sock, false, None);
      SetSockOpt(hooked, ctx, d, FromMillis(v));
    }

    /** getRecvTimeout and getSendTimeout; -1 for a socket that nobody tracks. */
    method GetTimeout(d: Direction) returns (v: Int64)
      requires table.Valid()
      modifies table
      ensures table.Valid() && table.datas == old(table.datas)
      ensures v == if Ctx().Some? then ToInt64(Stored(Ctx().value, d)) else -1
    {
      var ctx := table.Get(sock, false, None);
      if ctx.Some? {
        return ToInt64(if d.Recv? then ctx.value.recvTimeout else ctx.value.sendTimeout);
      }
      return -1;
    }

    /** One after the other, on a tracked socket with hooks on. */
    method SetThenGet(d: Direction, v: Int64) returns (r: Int64)
      requires table.Valid() && Ctx().Some?
      modifies table, Ctx().value
      ensures r == v <==> -TWO_31 <= Quotient(v, 1000) < TWO_31
    {
      SetTimeout(true, d, v);
      r := GetTimeout(d);
      RoundTrip(v);
    }
  }
}
