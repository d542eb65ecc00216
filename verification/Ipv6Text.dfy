// The text form of an IPv6 address and port that IPv6Address::insert writes, and a reader of such text that
// follows section 2.2 of RFC 4291 and knows nothing of the writer.

module Ipv6Text {
  import opened Base

  type Group = n: nat | n < 0x1_0000

  // ---------- numbers ----------

  type Radix = r: nat | r == 10 || r == 16 witness 10

  function Quotient(n: nat, radix: Radix): (q: nat)
    ensures n >= radix ==> q < n
  {
    if radix == 10 then n / 10 else n / 16
  }

  function LastDigit(n: nat, radix: Radix): (d: nat)
    ensures d < radix && Quotient(n, radix) * radix + d == n
    ensures n < radix ==> d == n && Quotient(n, radix) == 0
  {
    if radix == 10 then n % 10 else n % 16
  }

  function DigitChar(d: nat): char
    requires d < 16
  {
    "0123456789abcdef"[d]
  }

  /** What std::hex and std::dec write: no leading zeros, lower case. */
  function Digits(n: nat, radix: Radix): string {
    if n < radix then [DigitChar(n)] else Digits(Quotient(n, radix), radix) + [DigitChar(LastDigit(n, radix))]
  }

  function DigitValue(c: char): Option<nat> {
    if '0' <= c <= '9' then Some((c - '0') as nat)
    else if 'a' <= c <= 'f' then Some(10 + (c - 'a') as nat)
    else if 'A' <= c <= 'F' then Some(10 + (c - 'A') as nat)
    else None
  }

  function Value(s: string, radix: Radix): Option<nat> {
    if s == "" then Some(0)
    else
      var high, low := Value(s[..|s| - 1], radix), DigitValue(s[|s| - 1]);
      if high.Some? && low.Some? && low.value < radix then Some(high.value * radix + low.value) else None
  }

  lemma DigitHasItsValue(d: nat)
    requires d < 16
    ensures DigitValue(DigitChar(d)) == Some(d)
  {
  }

  /** One digit more. */
  lemma ValueSnoc(s: string, n: nat, radix: Radix)
    requires Value(s, radix) == Some(Quotient(n, radix))
    ensures Value(s + [DigitChar(LastDigit(n, radix))], radix) == Some(n)
  {
    hide Quotient, LastDigit, DigitValue, DigitChar;
    var t := s + [DigitChar(LastDigit(n, radix))];
    assert t[..|t| - 1] == s;
    DigitHasItsValue(LastDigit(n, radix));
  }

  lemma {:induction false} DigitsHaveTheValue(n: nat, radix: Radix)
    ensures Value(Digits(n, radix), radix) == Some(n)
  {
    hide Value, Quotient, LastDigit, DigitChar;
    if n < radix {
      NothingIsZero(radix);
      assert LastDigit(n, radix) == n;
      ValueSnoc("", n, radix);
      assert "" + [DigitChar(n)] == [DigitChar(n)];
    } else {
      DigitsHaveTheValue(Quotient(n, radix), radix);
      ValueSnoc(Digits(Quotient(n, radix), radix), n, radix);
    }
  }

  lemma NothingIsZero(radix: Radix)
    ensures Value("", radix) == Some(0)
  {
  }

  lemma {:induction false} DigitsAreDigits(n: nat, radix: Radix)
    ensures Digits(n, radix) != "" && forall i :: 0 <= i < |Digits(n, radix)| ==> DigitValue(Digits(n, radix)[i]).Some?
  {
    hide Quotient, LastDigit, DigitValue, DigitChar;
    DigitHasItsValue(LastDigit(n, radix));
    if n >= radix {
      DigitsAreDigits(Quotient(n, radix), radix);
    }
  }

  // ---------- the reader ----------

  function Split(s: string): (parts: seq<string>)
    ensures parts != []
  {
    if s == "" then [""]
    else if s[0] == ':' then [""] + Split(s[1..])
    else
      var rest := Split(s[1..]);
      [[s[0]] + rest[0]] + rest[1..]
  }

  /** One to four hexadecimal digits. */
  function ReadGroup(s: string): Option<Group> {
    var v := Value(s, 16);
    if 1 <= |s| <= 4 && v.Some? && v.value < 0x1_0000 then Some(v.value) else None
  }

  function ReadGroups(parts: seq<string>): Option<seq<Group>> {
    if parts == [] then Some([])
    else
      var first, rest := ReadGroup(parts[0]), ReadGroups(parts[1..]);
      if first.Some? && rest.Some? then Some([first.value] + rest.value) else None
  }

  /** Groups with a colon between them; nothing stands for no group. */
  function ReadList(s: string): Option<seq<Group>> {
    if s == "" then Some([]) else ReadGroups(Split(s))
  }

  predicate GapAt(s: string, i: nat) {
    i + 1 < |s| && s[i] == ':' && s[i + 1] == ':'
  }

  function FirstGap(s: string): (r: Option<nat>)
    ensures r.Some? ==> GapAt(s, r.value)
  {
    if |s| < 2 then None
    else if GapAt(s, 0) then Some(0)
    else
      var r := FirstGap(s[1..]);
      if r.Some? then Some(r.value + 1) else None
  }

  /** Eight groups, or "::" once for one or more groups of zeros. */
  function ReadAddress(s: string): Option<seq<Group>> {
    match FirstGap(s)
    case None =>
      var gs := ReadList(s);
      if gs.Some? && |gs.value| == 8 then gs else None
    case Some(i) =>
      var left, right := ReadList(s[..i]), ReadList(s[i + 2..]);
      if left.Some? && right.Some? && |left.value| + |right.value| <= 7
      then Some(left.value + Zeros(8 - |left.value| - |right.value|) + right.value)
      else None
  }

  function Zeros(n: nat): seq<Group> {
    seq(n, i => 0)
  }

  function Find(s: string, c: char): (r: Option<nat>)
    ensures r.Some? ==> r.value < |s| && s[r.value] == c
  {
    if s == "" then None
    else if s[0] == c then Some(0)
    else
      var r := Find(s[1..], c);
      if r.Some? then Some(r.value + 1) else None
  }

  /** [address]:port */
  function Read(s: string): Option<(seq<Group>, nat)> {
    match Find(s, ']')
    case None => None
    case Some(i) =>
      if i == 0 || s[0] != '[' || |s| <= i + 2 || s[i + 1] != ':' then None
      else
        var address, port := ReadAddress(s[1..i]), Value(s[i + 2..], 10);
        if address.Some? && port.Some? then Some((address.value, port.value)) else None
  }

  // ---------- the writer ----------

  function Join(gs: seq<Group>): string {
    if gs == [] then ""
    else if |gs| == 1 then Digits(gs[0], 16)
    else Digits(gs[0], 16) + ":" + Join(gs[1..])
  }

  /** Where the first run of zeros starts, and where a run that starts at i ends. */
  function FirstZero(gs: seq<Group>): (z: nat)
    ensures z <= |gs| && (z < |gs| ==> gs[z] == 0) && forall i :: 0 <= i < z ==> gs[i] != 0
  {
    if gs == [] || gs[0] == 0 then 0
    else
      assert forall i :: 0 < i < |gs| ==> gs[i] == gs[1..][i - 1];
      1 + FirstZero(gs[1..])
  }

  function RunEnd(gs: seq<Group>, i: nat): (e: nat)
    requires i <= |gs|
    ensures i <= e <= |gs| && (e < |gs| ==> gs[e] != 0) && forall k :: i <= k < e ==> gs[k] == 0
    decreases |gs| - i
  {
    if i == |gs| || gs[i] != 0 then i else RunEnd(gs, i + 1)
  }

  /** The first run of zeros becomes "::". */
  function Shortened(gs: seq<Group>): string {
    var z := FirstZero(gs);
    if z == |gs| then Join(gs) else Join(gs[..z]) + "::" + Join(gs[RunEnd(gs, z)..])
  }

  /** What is written after i groups: nothing of the first run of zeros until its end is known. */
  ghost function Written(gs: seq<Group>, i: nat): string
    requires i <= |gs|
  {
    var z := FirstZero(gs);
    var e := RunEnd(gs, z);
    if i <= z then Join(gs[..i]) else if i <= e then Join(gs[..z]) else Join(gs[..z]) + "::" + Join(gs[e..i])
  }

  lemma WriteBefore(gs: seq<Group>, i: nat)
    requires i < FirstZero(gs)
    ensures Written(gs, i + 1) == Written(gs, i) + (if i > 0 then ":" else "") + Digits(gs[i], 16)
  {
    hide Join, Digits, FirstZero, RunEnd;
    JoinSnoc(gs[..i], gs[i]);
    assert gs[..i] + [gs[i]] == gs[..i + 1];
  }

  lemma JoinGrows(gs: seq<Group>, a: nat, b: nat)
    requires a <= b < |gs|
    ensures Join(gs[a..b + 1]) == (if a == b then "" else Join(gs[a..b]) + ":") + Digits(gs[b], 16)
  {
    JoinSnoc(gs[a..b], gs[b]);
    assert gs[a..b] + [gs[b]] == gs[a..b + 1];
  }

  lemma Reassociate(a: string, b: string, c: string)
    ensures a + (b + c) == a + b + c
  {
  }

  lemma WriteAfter(gs: seq<Group>, i: nat)
    requires i < |gs| && FirstZero(gs) < RunEnd(gs, FirstZero(gs)) <= i
    ensures Written(gs, i + 1)
            == Written(gs, i) + (if i == RunEnd(gs, FirstZero(gs)) then "::" else ":") + Digits(gs[i], 16)
  {
    hide Join, Digits, FirstZero, RunEnd;
    var z := FirstZero(gs);
    var e := RunEnd(gs, z);
    JoinGrows(gs, e, i);
    Reassociate(Join(gs[..z]) + "::", if i == e then "" else Join(gs[e..i]) + ":", Digits(gs[i], 16));
    Reassociate(Join(gs[..z]) + "::", Join(gs[e..i]), ":");
  }

  lemma WriteInside(gs: seq<Group>, i: nat)
    requires FirstZero(gs) <= i < RunEnd(gs, FirstZero(gs))
    ensures Written(gs, i + 1) == Written(gs, i)
  {
    hide Join;
    var z := FirstZero(gs);
    assert gs[..z] == gs[..i] || z < i;
  }

  /** The loop of insert, group by group, with its flag. */
  method Insert(gs: seq<Group>, port: nat) returns (os: string)
    requires |gs| == 8
    ensures os == Text(gs, port)
  {
    hide Join, Written, Digits, FirstZero, RunEnd, Shortened;
    ghost var z := FirstZero(gs);
    ghost var e := RunEnd(gs, z);
    var text := "";
    var usedZeros := false;
    WrittenEnds(gs);
    for i := 0 to 8
      invariant usedZeros == (z < e < i)
      invariant text == Written(gs, i)
    {
      if i < z {
        WriteBefore(gs, i);
      } else if i >= e {
        WriteAfter(gs, i);
      } else {
        WriteInside(gs, i);
      }
      if gs[i] == 0 && !usedZeros {
        continue;
      }
      if i > 0 && gs[i - 1] == 0 && !usedZeros {
        text := text + ":";
        usedZeros := true;
      }
      if i > 0 {
        text := text + ":";
      }
      text := text + Digits(gs[i], 16);
    }
    if !usedZeros && gs[7] == 0 {
      text := text + "::";
    }
    os := "[" + text + "]:" + Digits(port, 10);
  }

  lemma WrittenEnds(gs: seq<Group>)
    ensures Written(gs, 0) == ""
    ensures var e := RunEnd(gs, FirstZero(gs));
            Shortened(gs) == Written(gs, |gs|) + if FirstZero(gs) < |gs| && e == |gs| then "::" else ""
  {
    assert gs[..|gs|] == gs;
  }

  lemma {:induction false} JoinSnoc(gs: seq<Group>, g: Group)
    ensures Join(gs + [g]) == (if gs == [] then "" else Join(gs) + ":") + Digits(g, 16)
    ensures gs == [] ==> Join(gs) == ""
  {
    if |gs| >= 1 {
      JoinSnoc(gs[1..], g);
      assert (gs + [g])[1..] == gs[1..] + [g];
    }
  }

  // ---------- the reader reads what the writer wrote ----------

  lemma {:induction false} SplitWord(w: string, rest: string)
    requires ':' !in w
    ensures Split(w) == [w]
    ensures Split(w + ":" + rest) == [w] + Split(rest)
  {
    if w == "" {
      assert ("" + ":" + rest)[1..] == rest;
    } else {
      SplitWord(w[1..], rest);
      assert (w + ":" + rest)[1..] == w[1..] + ":" + rest;
      assert [w[0]] + w[1..] == w;
    }
  }

  lemma HexGroup(g: Group)
    ensures ReadGroup(Digits(g, 16)) == Some(g)
  {
    DigitsHaveTheValue(g, 16);
    assert 1 <= |Digits(g, 16)| <= 4 by {
      hide Value;
      HexLength(g);
    }
  }

  lemma HexLength(g: Group)
    ensures 1 <= |Digits(g, 16)| <= 4
  {
    LengthStep(g);
    LengthStep(g / 16);
    LengthStep(g / 16 / 16);
    assert g / 16 / 16 / 16 < 16;
  }

  lemma LengthStep(n: nat)
    ensures |Digits(n, 16)| == if n < 16 then 1 else |Digits(n / 16, 16)| + 1
  {
  }

  /** The characters of a printed number separate nothing. */
  lemma DigitsSeparateNothing(n: nat, radix: Radix)
    ensures Digits(n, radix) != "" && ':' !in Digits(n, radix) && ']' !in Digits(n, radix)
  {
    DigitsAreDigits(n, radix);
  }

  lemma {:induction false} ReadJoined(gs: seq<Group>)
    ensures ReadList(Join(gs)) == Some(gs)
    ensures gs != [] ==> Join(gs) != "" && ReadGroups(Split(Join(gs))) == Some(gs)
  {
    if gs != [] {
      HexGroup(gs[0]);
      DigitsSeparateNothing(gs[0], 16);
      hide Digits, ReadGroup;
      if |gs| == 1 {
        SplitWord(Digits(gs[0], 16), "");
        assert gs[1..] == [] && [Digits(gs[0], 16)] + [] == [Digits(gs[0], 16)];
        ReadFirst(Digits(gs[0], 16), [], gs);
      } else {
        ReadJoined(gs[1..]);
        SplitWord(Digits(gs[0], 16), Join(gs[1..]));
        ReadFirst(Digits(gs[0], 16), Split(Join(gs[1..])), gs);
      }
    }
  }

  lemma ReadFirst(w: string, parts: seq<string>, gs: seq<Group>)
    requires gs != [] && ReadGroup(w) == Some(gs[0]) && ReadGroups(parts) == Some(gs[1..])
    ensures ReadGroups([w] + parts) == Some(gs)
  {
    assert ([w] + parts)[1..] == parts;
    assert [gs[0]] + gs[1..] == gs;
  }

  /** No "::" inside, no colon at either end. */
  ghost predicate Clean(s: string) {
    && (forall i :: 0 <= i < |s| ==> !GapAt(s, i))
    && (s != "" ==> s[0] != ':' && s[|s| - 1] != ':')
    && ']' !in s
  }

  lemma {:induction false} JoinIsClean(gs: seq<Group>)
    ensures Clean(Join(gs))
    ensures gs != [] ==> Join(gs) != ""
  {
    if gs != [] {
      DigitsSeparateNothing(gs[0], 16);
      if |gs| > 1 {
        JoinIsClean(gs[1..]);
        CleanPair(Digits(gs[0], 16), Join(gs[1..]));
      }
    }
  }

  lemma CleanPair(w: string, s: string)
    requires w != "" && ':' !in w && ']' !in w && Clean(s) && s != ""
    ensures Clean(w + ":" + s)
  {
    var r := w + ":" + s;
    forall i | 0 <= i < |r| ensures !GapAt(r, i) {
      if i < |w| {
        assert r[i] in w;
      } else if i > |w| {
        assert !GapAt(s, i - |w| - 1);
      }
    }
  }

  lemma {:induction false} FirstGapIs(x: string, y: string)
    requires Clean(x)
    ensures FirstGap(x) == None
    ensures FirstGap(x + "::" + y) == Some(|x|)
  {
    if x != "" {
      FirstGapTail(x, y);
      assert (x + "::" + y)[1..] == x[1..] + "::" + y;
      assert !GapAt(x, 0) && !GapAt(x + "::" + y, 0);
    }
  }

  lemma {:induction false} FirstGapTail(x: string, y: string)
    requires x != "" && x[|x| - 1] != ':' && forall i :: 0 <= i < |x| ==> !GapAt(x, i)
    ensures FirstGap(x[1..]) == None && FirstGap(x[1..] + "::" + y) == Some(|x| - 1)
  {
    var t := x[1..];
    if t != "" {
      forall i | 0 <= i < |t| ensures !GapAt(t, i) {
        assert !GapAt(x, i + 1);
      }
      FirstGapTail(t, y);
      assert (t + "::" + y)[1..] == t[1..] + "::" + y;
      assert !GapAt(t, 0) && !GapAt(t + "::" + y, 0);
    }
  }

  lemma GapRoundTrip(left: seq<Group>, n: nat, right: seq<Group>)
    requires n >= 1 && |left| + n + |right| == 8
    ensures ReadAddress(Join(left) + "::" + Join(right)) == Some(left + Zeros(n) + right)
    ensures FirstGap(Join(left) + "::" + Join(right)).Some?
  {
    hide Join, ReadList, FirstGap, Clean, GapAt, ReadAddress;
    JoinIsClean(left);
    FirstGapIs(Join(left), Join(right));
    ReadJoined(left);
    ReadJoined(right);
    ReadAcrossGap(Join(left), Join(right), left, n, right);
  }

  lemma ReadAcrossGap(x: string, y: string, left: seq<Group>, n: nat, right: seq<Group>)
    requires FirstGap(x + "::" + y) == Some(|x|) && ReadList(x) == Some(left) && ReadList(y) == Some(right)
    requires n >= 1 && |left| + n + |right| == 8
    ensures ReadAddress(x + "::" + y) == Some(left + Zeros(n) + right)
  {
    hide FirstGap, ReadList, GapAt;
    Cut(x, y);
  }

  lemma Cut(x: string, y: string)
    ensures (x + "::" + y)[..|x|] == x && (x + "::" + y)[|x| + 2..] == y
  {
  }

  lemma PlainRoundTrip(gs: seq<Group>)
    requires |gs| == 8
    ensures ReadAddress(Join(gs)) == Some(gs) && FirstGap(Join(gs)) == None
  {
    hide Join, ReadList, FirstGap;
    JoinIsClean(gs);
    FirstGapIs(Join(gs), "");
    ReadJoined(gs);
  }

  /** The reader of RFC 4291 gets every address back, and finds "::" exactly when there is a group of zeros. */
  lemma AddressRoundTrip(gs: seq<Group>)
    requires |gs| == 8
    ensures ReadAddress(Shortened(gs)) == Some(gs)
    ensures FirstGap(Shortened(gs)).Some? <==> 0 in gs
  {
    hide Join, ReadAddress, FirstZero, RunEnd, FirstGap;
    var z := FirstZero(gs);
    if z == 8 {
      PlainRoundTrip(gs);
    } else {
      var e := RunEnd(gs, z);
      GapRoundTrip(gs[..z], e - z, gs[e..]);
      assert gs == gs[..z] + Zeros(e - z) + gs[e..];
    }
  }

  /** What insert writes, for an address and a port. */
  function Text(gs: seq<Group>, port: nat): string {
    "[" + Shortened(gs) + "]:" + Digits(port, 10)
  }

  lemma RoundTrip(gs: seq<Group>, port: nat)
    requires |gs| == 8
    ensures Read(Text(gs, port)) == Some((gs, port))
  {
    AddressRoundTrip(gs);
    DigitsHaveTheValue(port, 10);
    ShortenedHasNoBracket(gs);
    hide Shortened, ReadAddress, Digits, Value, Find;
    Brackets(Shortened(gs), Digits(port, 10));
  }

  lemma Brackets(a: string, p: string)
    requires ']' !in a
    ensures var s := "[" + a + "]:" + p;
            && Find(s, ']') == Some(|a| + 1) && |s| == |a| + |p| + 3 && s[0] == '[' && s[|a| + 2] == ':'
            && s[1..|a| + 1] == a && s[|a| + 3..] == p
  {
    FindAfter("[" + a, ']', ":" + p);
    assert "[" + a + "]:" + p == ("[" + a) + "]" + (":" + p);
  }

  lemma ShortenedHasNoBracket(gs: seq<Group>)
    ensures ']' !in Shortened(gs)
  {
    var z := FirstZero(gs);
    JoinIsClean(gs);
    JoinIsClean(gs[..z]);
    JoinIsClean(gs[RunEnd(gs, z)..]);
  }

  lemma {:induction false} FindAfter(x: string, c: char, y: string)
    requires c !in x
    ensures Find(x + [c] + y, c) == Some(|x|)
  {
    if x != "" {
      FindAfter(x[1..], c, y);
      assert (x + [c] + y)[1..] == x[1..] + [c] + y;
    }
  }

  /** Different addresses or ports are written differently. */
  lemma TextIsInjective(gs1: seq<Group>, port1: nat, gs2: seq<Group>, port2: nat)
    requires |gs1| == 8 && |gs2| == 8 && Text(gs1, port1) == Text(gs2, port2)
    ensures gs1 == gs2 && port1 == port2
  {
    RoundTrip(gs1, port1);
    RoundTrip(gs2, port2);
  }

  /** Lower-case digits, colons and brackets, and nothing else. */
  predicate Plain(s: string) {
    forall i :: 0 <= i < |s| ==> s[i] in "0123456789abcdef:[]"
  }

  /** A number is written in lower case and without a leading zero. */
  lemma {:induction false} DigitsArePlain(n: nat, radix: Radix)
    ensures Digits(n, radix) != "" && Plain(Digits(n, radix)) && (Digits(n, radix)[0] == '0' ==> n == 0)
  {
    hide Quotient, LastDigit;
    DigitIsPlain(LastDigit(n, radix));
    if n >= radix {
      QuotientIsPositive(n, radix);
      DigitsArePlain(Quotient(n, radix), radix);
    } else {
      DigitIsPlain(n);
    }
  }

  lemma DigitIsPlain(d: nat)
    requires d < 16
    ensures DigitChar(d) in "0123456789abcdef:[]" && (DigitChar(d) == '0' ==> d == 0)
  {
    assert "0123456789abcdef:[]"[d] == DigitChar(d);
  }

  lemma QuotientIsPositive(n: nat, radix: Radix)
    requires n >= radix
    ensures Quotient(n, radix) > 0
  {
  }

  lemma {:induction false} JoinIsPlain(gs: seq<Group>)
    ensures Plain(Join(gs))
  {
    hide Digits;
    if gs != [] {
      DigitsArePlain(gs[0], 16);
      JoinIsPlain(gs[1..]);
      ColonIsPlain();
    }
  }

  lemma ColonIsPlain()
    ensures Plain(":") && Plain("::") && Plain("[") && Plain("]:")
  {
    assert "0123456789abcdef:[]"[16] == ':' && "0123456789abcdef:[]"[17] == '[' && "0123456789abcdef:[]"[18] == ']';
  }

  /** The whole text is written so. */
  lemma TextIsPlain(gs: seq<Group>, port: nat)
    ensures Plain(Text(gs, port))
  {
    hide Join, Digits, FirstZero, RunEnd;
    ColonIsPlain();
    JoinIsPlain(gs);
    JoinIsPlain(gs[..FirstZero(gs)]);
    JoinIsPlain(gs[RunEnd(gs, FirstZero(gs))..]);
    DigitsArePlain(port, 10);
  }

  /** "::" stands at most once in the text, wherever the run of zeros is. */
  lemma AtMostOneGap(gs: seq<Group>, i: nat, j: nat)
    requires GapAt(Shortened(gs), i) && GapAt(Shortened(gs), j)
    ensures i == j
  {
    var z := FirstZero(gs);
    var e := RunEnd(gs, z);
    JoinIsClean(gs);
    if z < |gs| {
      var left, right := Join(gs[..z]), Join(gs[e..]);
      JoinIsClean(gs[..z]);
      JoinIsClean(gs[e..]);
      OneGapBetween(left, right, i);
      OneGapBetween(left, right, j);
    }
  }

  lemma OneGapBetween(x: string, y: string, i: nat)
    requires Clean(x) && Clean(y) && GapAt(x + "::" + y, i)
    ensures i == |x|
  {
    if i + 1 < |x| {
      assert GapAt(x, i);
    } else if i >= |x| + 2 {
      assert GapAt(y, i - |x| - 2);
    }
  }
}
