/**
  Sequence facts stated once for any element type. Proving them at an
  abstract type keeps the solver from unfolding the equality of nested
  records element by element.
 */
module Seqs {

  lemma PrefixStep<T>(s: seq<T>, i: nat)
    requires i < |s|
    ensures s[..i + 1] == s[..i] + [s[i]]
    ensures s[..i + 1][..i] == s[..i]
  {
  }

  lemma TakeAll<T>(s: seq<T>)
    ensures s[..|s|] == s
  {
  }

  lemma AppendNil<T>(a: seq<T>)
    ensures a + [] == a
  {
  }

  lemma AppendDropLast<T>(a: seq<T>, b: seq<T>)
    requires b != []
    ensures (a + b)[..|a + b| - 1] == a + b[..|b| - 1]
    ensures (a + b)[|a + b| - 1] == b[|b| - 1]
  {
  }

  lemma DropLast<T>(s: seq<T>)
    requires s != []
    ensures s == s[..|s| - 1] + [s[|s| - 1]]
  {
  }

  lemma AppendAssoc<T>(a: seq<T>, b: seq<T>, c: seq<T>)
    ensures (a + b) + c == a + (b + c)
  {
  }

  /** Every element of `s` satisfies `p` (stated by prefix recursion, like the lists it is used on). */
  predicate All<T>(s: seq<T>, p: T -> bool) {
    s == [] || (All(s[..|s| - 1], p) && p(s[|s| - 1]))
  }

  lemma AllSnoc<T>(a: seq<T>, x: T, p: T -> bool)
    requires All(a, p) && p(x)
    ensures All(a + [x], p)
  {
    assert (a + [x])[..|a|] == a;
  }

  lemma {:induction false} AllAppend<T>(a: seq<T>, b: seq<T>, p: T -> bool)
    requires All(a, p) && All(b, p)
    ensures All(a + b, p)
  {
    if b == [] {
      AppendNil(a);
    } else {
      AllAppend(a, b[..|b| - 1], p);
      AppendDropLast(a, b);
    }
  }

  lemma {:induction false} AllAt<T>(s: seq<T>, p: T -> bool, k: nat)
    requires All(s, p) && k < |s|
    ensures p(s[k])
  {
    if k < |s| - 1 {
      AllAt(s[..|s| - 1], p, k);
    }
  }

  /**
    Removing the last element of `a` and one equal element of its permutation
    `b` leaves two permutations of each other.
   */
  lemma PermutationRemove<T>(a: seq<T>, b: seq<T>, k: nat)
    requires multiset(a) == multiset(b) && a != [] && k < |b| && b[k] == a[|a| - 1]
    ensures multiset(a[..|a| - 1]) == multiset(b[..k] + b[k + 1..])
    ensures b == b[..k] + [b[k]] + b[k + 1..]
  {
    var x := a[|a| - 1];
    assert a == a[..|a| - 1] + [x];
    assert multiset(a) == multiset(a[..|a| - 1]) + multiset{x};
    assert b == b[..k] + [b[k]] + b[k + 1..];
    assert multiset(b) == multiset(b[..k]) + multiset{x} + multiset(b[k + 1..]);
    assert multiset(b[..k] + b[k + 1..]) == multiset(b[..k]) + multiset(b[k + 1..]);
    assert multiset(b) == multiset(b[..k] + b[k + 1..]) + multiset{x};
    assert multiset(a[..|a| - 1]) == multiset(a) - multiset{x};
    assert multiset(b[..k] + b[k + 1..]) == multiset(b) - multiset{x};
  }

  /** An element of a permutation of `b` occurs in `b`. */
  lemma InPermutation<T>(a: seq<T>, b: seq<T>, x: T)
    requires multiset(a) == multiset(b) && x in a
    ensures exists k :: 0 <= k < |b| && b[k] == x
  {
    assert x in multiset(a);
    assert x in multiset(b);
  }

  /** The sum of `f` over the elements of `s`, accumulated left to right. */
  function Sum<T>(s: seq<T>, f: T -> int): int {
    if s == [] then 0 else Sum(s[..|s| - 1], f) + f(s[|s| - 1])
  }

  lemma SumStep<T>(s: seq<T>, i: nat, f: T -> int)
    requires i < |s|
    ensures Sum(s[..i + 1], f) == Sum(s[..i], f) + f(s[i])
  {
    PrefixStep(s, i);
  }

  lemma SumSingle<T>(x: T, f: T -> int)
    ensures Sum([x], f) == f(x)
  {
    assert [x][..0] == [];
  }

  lemma {:induction false} SumAppend<T>(a: seq<T>, b: seq<T>, f: T -> int)
    ensures Sum(a + b, f) == Sum(a, f) + Sum(b, f)
  {
    if b == [] {
      AppendNil(a);
    } else {
      SumAppend(a, b[..|b| - 1], f);
      AppendDropLast(a, b);
    }
  }

  /** A sum does not depend on the order of the elements. */
  lemma {:induction false} SumPermutation<T>(a: seq<T>, b: seq<T>, f: T -> int)
    requires multiset(a) == multiset(b)
    ensures Sum(a, f) == Sum(b, f)
  {
    if a == [] {
      assert |b| == |multiset(b)| == 0;
    } else {
      var x := a[|a| - 1];
      InPermutation(a, b, x);
      var k :| 0 <= k < |b| && b[k] == x;
      PermutationRemove(a, b, k);
      SumPermutation(a[..|a| - 1], b[..k] + b[k + 1..], f);
      SumAppend(b[..k] + [x], b[k + 1..], f);
      SumAppend(b[..k], [x], f);
      SumAppend(b[..k], b[k + 1..], f);
      assert [x][..0] == [];
    }
  }
}
