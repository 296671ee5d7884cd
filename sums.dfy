/** Sums of a projection over a sequence, and the facts about them the model needs. */
module Sums {

  /** The sum of `f` over the elements of `xs`, in order. */
  function Sum<T>(xs: seq<T>, f: T -> int): int
    decreases |xs|
  {
    if xs == [] then 0 else f(xs[0]) + Sum(xs[1..], f)
  }

  lemma {:induction false} SumConcat<T>(a: seq<T>, b: seq<T>, f: T -> int)
    ensures Sum(a + b, f) == Sum(a, f) + Sum(b, f)
    decreases |a|
  {
    if a == [] {
      assert a + b == b;
    } else {
      assert (a + b)[1..] == a[1..] + b;
      SumConcat(a[1..], b, f);
    }
  }

  /** Sums agree on two sequences that are element-wise related by their projections. */
  lemma {:induction false} SumPointwise<A, B>(a: seq<A>, b: seq<B>, f: A -> int, g: B -> int)
    requires |a| == |b|
    requires forall i :: 0 <= i < |a| ==> f(a[i]) == g(b[i])
    ensures Sum(a, f) == Sum(b, g)
    decreases |a|
  {
    if a != [] {
      SumPointwise(a[1..], b[1..], f, g);
    }
  }

  /** A sum is linear: if `f - g == h` on every element, the same holds of the sums. */
  lemma {:induction false} SumDifference<T>(xs: seq<T>, f: T -> int, g: T -> int, h: T -> int)
    requires forall i :: 0 <= i < |xs| ==> f(xs[i]) - g(xs[i]) == h(xs[i])
    ensures Sum(xs, f) - Sum(xs, g) == Sum(xs, h)
    decreases |xs|
  {
    if xs != [] {
      SumDifference(xs[1..], f, g, h);
    }
  }

  lemma {:induction false} SumNonNegative<T>(xs: seq<T>, f: T -> int)
    requires forall i :: 0 <= i < |xs| ==> f(xs[i]) >= 0
    ensures Sum(xs, f) >= 0
    decreases |xs|
  {
    if xs != [] {
      SumNonNegative(xs[1..], f);
    }
  }

  /** Taking one element out of a sequence takes its projection out of the sum. */
  lemma SumRemove<T>(b: seq<T>, j: nat, f: T -> int)
    requires j < |b|
    ensures Sum(b, f) == f(b[j]) + Sum(b[..j] + b[j + 1..], f)
  {
    var front, back := b[..j], b[j + 1..];
    assert b == front + b[j..];
    SumConcat(front, b[j..], f);
    assert b[j..][1..] == back;
    SumConcat(front, back, f);
  }

  /** Taking the element at `j` out of a sequence takes one copy of it out of its multiset. */
  lemma MultisetRemove<T>(b: seq<T>, j: nat)
    requires j < |b|
    ensures multiset(b[..j] + b[j + 1..]) == multiset(b) - multiset{b[j]}
  {
    assert b == b[..j] + [b[j]] + b[j + 1..];
  }

  /** Where a permutation of `a` holds the first element of `a`, and what is left of both once it is taken out. */
  lemma MatchFirst<T>(a: seq<T>, b: seq<T>) returns (j: nat)
    requires a != [] && multiset(a) == multiset(b)
    ensures j < |b| && b[j] == a[0]
    ensures multiset(a[1..]) == multiset(b[..j] + b[j + 1..])
  {
    assert a == [a[0]] + a[1..];
    assert a[0] in multiset(b);
    j :| 0 <= j < |b| && b[j] == a[0];
    MultisetRemove(b, j);
  }

  /** Reordering a sequence does not change its sum. */
  lemma {:induction false} SumPermutation<T>(a: seq<T>, b: seq<T>, f: T -> int)
    requires multiset(a) == multiset(b)
    ensures Sum(a, f) == Sum(b, f)
    decreases |a|
  {
    if a == [] {
      assert |b| == |multiset(b)| == 0;
    } else {
      var j := MatchFirst(a, b);
      SumPermutation(a[1..], b[..j] + b[j + 1..], f);
      SumRemove(b, j, f);
    }
  }
}
