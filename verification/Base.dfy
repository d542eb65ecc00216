// Definitions shared by every component: an optional value and weighted sums over sequences.

module Base {
  datatype Option<+T> = None | Some(value: T)

  /** The total weight of the elements of a sequence. Counting the references to a waiter, the set
      event bits or the workers inside a section are all sums of this shape. */
  function Sum<T>(s: seq<T>, w: T -> nat): nat {
    if s == [] then 0 else w(s[0]) + Sum(s[1..], w)
  }

  lemma {:induction false} SumAppend<T>(a: seq<T>, b: seq<T>, w: T -> nat)
    ensures Sum(a + b, w) == Sum(a, w) + Sum(b, w)
  {
    if a == [] {
      assert a + b == b;
    } else {
      assert (a + b)[1..] == a[1..] + b;
      SumAppend(a[1..], b, w);
    }
  }

  lemma SumPush<T>(s: seq<T>, x: T, w: T -> nat)
    ensures Sum(s + [x], w) == Sum(s, w) + w(x)
  {
    SumAppend(s, [x], w);
    assert Sum([x], w) == w(x) + Sum([], w);
  }

  lemma SumSplit<T>(s: seq<T>, i: nat, w: T -> nat)
    requires i < |s|
    ensures Sum(s, w) == Sum(s[..i], w) + w(s[i]) + Sum(s[i + 1..], w)
  {
    assert s == s[..i] + ([s[i]] + s[i + 1..]);
    SumAppend(s[..i], [s[i]] + s[i + 1..], w);
    assert ([s[i]] + s[i + 1..])[1..] == s[i + 1..];
  }

  lemma SumUpdate<T>(s: seq<T>, i: nat, x: T, w: T -> nat)
    requires i < |s|
    ensures Sum(s[i := x], w) + w(s[i]) == Sum(s, w) + w(x)
  {
    SumSplit(s, i, w);
    SumSplit(s[i := x], i, w);
    assert s[i := x][..i] == s[..i] && s[i := x][i + 1..] == s[i + 1..];
  }

  lemma SumRemove<T>(s: seq<T>, i: nat, w: T -> nat)
    requires i < |s|
    ensures Sum(s[..i] + s[i + 1..], w) + w(s[i]) == Sum(s, w)
  {
    SumSplit(s, i, w);
    SumAppend(s[..i], s[i + 1..], w);
  }

  lemma SumMember<T>(s: seq<T>, i: nat, w: T -> nat)
    requires i < |s|
    ensures w(s[i]) <= Sum(s, w)
  {
    SumSplit(s, i, w);
  }

  lemma {:induction false} SumZero<T>(s: seq<T>, w: T -> nat)
    requires forall x :: x in s ==> w(x) == 0
    ensures Sum(s, w) == 0
  {
    if s != [] {
      SumZero(s[1..], w);
    }
  }
}
