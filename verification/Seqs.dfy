/** Facts about sequences, multisets and finite sums that several models share. */
module Seqs {

  function Min(a: int, b: int): int {
    if a <= b then a else b
  }

  function Max(a: int, b: int): int {
    if a >= b then a else b
  }

  /** `s` without the element at position `k`. */
  function RemoveAt<T>(s: seq<T>, k: nat): (r: seq<T>)
    requires k < |s|
    ensures |r| == |s| - 1
  {
    s[..k] + s[k + 1..]
  }

  lemma RemoveAtMultiset<T>(s: seq<T>, k: nat)
    requires k < |s|
    ensures multiset(RemoveAt(s, k)) == multiset(s) - multiset{s[k]}
    ensures multiset(s) == multiset(RemoveAt(s, k)) + multiset{s[k]}
  {
    assert s == s[..k] + ([s[k]] + s[k + 1..]);
  }

  /** The elements of `s` outside `gone`, in order. */
  function Without<T(==,!new)>(s: seq<T>, gone: set<T>): (r: seq<T>)
    ensures forall x :: x in r <==> x in s && x !in gone
  {
    if s == [] then []
    else if s[0] in gone then Without(s[1..], gone)
    else [s[0]] + Without(s[1..], gone)
  }

  lemma {:induction false} WithoutMultiset<T(!new)>(s: seq<T>, gone: set<T>, x: T)
    ensures multiset(Without(s, gone))[x] == if x in gone then 0 else multiset(s)[x]
  {
    if s != [] {
      WithoutMultiset(s[1..], gone, x);
      assert s == [s[0]] + s[1..];
    }
  }

  lemma {:induction false} WithoutConcat<T(!new)>(s: seq<T>, t: seq<T>, gone: set<T>)
    ensures Without(s + t, gone) == Without(s, gone) + Without(t, gone)
  {
    if s == [] {
      assert s + t == t;
    } else {
      assert (s + t)[1..] == s[1..] + t;
      WithoutConcat(s[1..], t, gone);
    }
  }

  /** The first position of `x` in `s`. */
  function IndexOf<T(==)>(s: seq<T>, x: T): (k: nat)
    requires x in s
    ensures k < |s| && s[k] == x
    ensures x !in s[..k]
  {
    if s[0] == x then 0 else 1 + IndexOf(s[1..], x)
  }

  function Reverse<T>(s: seq<T>): (r: seq<T>)
    ensures |r| == |s|
    ensures forall k :: 0 <= k < |s| ==> r[k] == s[|s| - 1 - k]
  {
    if s == [] then [] else Reverse(s[1..]) + [s[0]]
  }

  lemma {:induction false} ReverseMultiset<T>(s: seq<T>)
    ensures multiset(Reverse(s)) == multiset(s)
  {
    if s != [] {
      ReverseMultiset(s[1..]);
      assert s == [s[0]] + s[1..];
    }
  }

  lemma CardMinus<T>(s: set<T>, x: T)
    ensures |s - {x}| <= |s|
  {
    if x in s {
      assert s == (s - {x}) + {x};
    } else {
      assert s - {x} == s;
    }
  }

  lemma {:induction false} WithoutNone<T(!new)>(s: seq<T>, gone: set<T>)
    requires forall x :: x in s ==> x !in gone
    ensures Without(s, gone) == s
  {
    if s != [] {
      WithoutNone(s[1..], gone);
    }
  }

  /** The sum of `xs[i..j]`. */
  function Sum(xs: seq<nat>, i: nat, j: nat): nat
    requires i <= j <= |xs|
  {
    if i == j then 0 else Sum(xs, i, j - 1) + xs[j - 1]
  }

  lemma {:induction false} SumSplits(xs: seq<nat>, i: nat, j: nat, k: nat)
    requires i <= j <= k <= |xs|
    ensures Sum(xs, i, k) == Sum(xs, i, j) + Sum(xs, j, k)
  {
    if j < k {
      SumSplits(xs, i, j, k - 1);
    }
  }

  /** `s` is `t` with some elements left out. */
  predicate Subseq<T(==)>(s: seq<T>, t: seq<T>)
    decreases |t|
  {
    || s == []
    || (t != [] && ((s[0] == t[0] && Subseq(s[1..], t[1..])) || Subseq(s, t[1..])))
  }

  /** `r` is `s` without the elements of `gone`: in order, and the others as often as
      before. */
  ghost predicate Dropped<T(!new)>(s: seq<T>, r: seq<T>, gone: set<T>) {
    Subseq(r, s) && forall x :: multiset(r)[x] == if x in gone then 0 else multiset(s)[x]
  }

  lemma {:induction false} WithoutSubseq<T(!new)>(s: seq<T>, gone: set<T>)
    ensures Subseq(Without(s, gone), s)
  {
    if s != [] {
      WithoutSubseq(s[1..], gone);
    }
  }

  lemma WithoutDrops<T(!new)>(s: seq<T>, gone: set<T>)
    ensures Dropped(s, Without(s, gone), gone)
  {
    WithoutSubseq(s, gone);
    forall x ensures multiset(Without(s, gone))[x] == if x in gone then 0 else multiset(s)[x] {
      WithoutMultiset(s, gone, x);
    }
  }
}
