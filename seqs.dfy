/** Sequence helpers shared by the backend models: Python-style slicing,
    list comprehension filters and "first element that matches" searches. */
module Seqs {

  function Min(a: int, b: int): int { if a <= b then a else b }

  /** Python's `xs[:n]` for n >= 0. */
  function Take<T>(xs: seq<T>, n: nat): (r: seq<T>)
    ensures |r| == Min(n, |xs|)
    ensures r == xs[..|r|]
  {
    xs[..Min(n, |xs|)]
  }

  /** Python's `xs[-n:]` for n > 0: the last n elements, or all of them. */
  function Last<T>(xs: seq<T>, n: nat): (r: seq<T>)
    ensures |r| == Min(n, |xs|)
    ensures r == xs[|xs| - |r|..]
  {
    xs[|xs| - Min(n, |xs|)..]
  }

  /** The elements of `xs` that satisfy `p`, in order (a loop that appends). */
  function Filter<T>(xs: seq<T>, p: T -> bool): (r: seq<T>)
    ensures |r| <= |xs|
  {
    if xs == [] then []
    else Filter(xs[..|xs| - 1], p) + (if p(xs[|xs| - 1]) then [xs[|xs| - 1]] else [])
  }

  /** Exactly the elements that satisfy `p` survive the filter. */
  lemma {:induction false} FilterMembership<T(!new)>(xs: seq<T>, p: T -> bool)
    ensures forall x :: x in Filter(xs, p) <==> x in xs && p(x)
    decreases |xs|
  {
    if xs != [] {
      var xs' := xs[..|xs| - 1];
      FilterMembership(xs', p);
      assert xs == xs' + [xs[|xs| - 1]];
    }
  }

  /** One more loop iteration extends the filtered prefix by at most the new element. */
  lemma FilterSnoc<T>(xs: seq<T>, x: T, p: T -> bool)
    ensures Filter(xs + [x], p) == Filter(xs, p) + (if p(x) then [x] else [])
  {
    assert (xs + [x])[..|xs + [x]| - 1] == xs;
  }

  function Map<T, U>(xs: seq<T>, f: T -> U): (r: seq<U>)
    ensures |r| == |xs|
    ensures forall k :: 0 <= k < |xs| ==> r[k] == f(xs[k])
  {
    if xs == [] then [] else Map(xs[..|xs| - 1], f) + [f(xs[|xs| - 1])]
  }

  lemma MapSnoc<T, U>(xs: seq<T>, x: T, f: T -> U)
    ensures Map(xs + [x], f) == Map(xs, f) + [f(x)]
  {
    assert (xs + [x])[..|xs + [x]| - 1] == xs;
  }

  /** One more loop iteration over a prefix of `xs`, mapped and then filtered. */
  lemma MapFilterPrefixStep<T, U>(xs: seq<T>, i: nat, f: T -> U, p: U -> bool)
    requires i < |xs|
    ensures Filter(Map(xs[..i + 1], f), p) == Filter(Map(xs[..i], f), p) + (if p(f(xs[i])) then [f(xs[i])] else [])
  {
    assert xs[..i + 1] == xs[..i] + [xs[i]];
    MapSnoc(xs[..i], xs[i], f);
    FilterSnoc(Map(xs[..i], f), f(xs[i]), p);
  }

  /** One more loop iteration over a prefix of `xs`, mapped. */
  lemma MapPrefixStep<T, U>(xs: seq<T>, i: nat, f: T -> U)
    requires i < |xs|
    ensures Map(xs[..i + 1], f) == Map(xs[..i], f) + [f(xs[i])]
  {
    assert xs[..i + 1] == xs[..i] + [xs[i]];
    MapSnoc(xs[..i], xs[i], f);
  }

  /** One more loop iteration over a prefix of `xs`, filtered and then mapped. */
  lemma FilterMapPrefixStep<T, U>(xs: seq<T>, i: nat, p: T -> bool, f: T -> U)
    requires i < |xs|
    ensures Map(Filter(xs[..i + 1], p), f) == Map(Filter(xs[..i], p), f) + (if p(xs[i]) then [f(xs[i])] else [])
  {
    assert xs[..i + 1] == xs[..i] + [xs[i]];
    FilterSnoc(xs[..i], xs[i], p);
    MapSnoc(Filter(xs[..i], p), xs[i], f);
  }

  /** A filter that keeps nothing yields the empty sequence. */
  lemma {:induction false} FilterNone<T>(xs: seq<T>, p: T -> bool)
    requires forall k :: 0 <= k < |xs| ==> !p(xs[k])
    ensures Filter(xs, p) == []
    decreases |xs|
  {
    if xs != [] {
      FilterNone(xs[..|xs| - 1], p);
    }
  }

  /** The image of a filter holds exactly the images of the kept elements. */
  lemma MapFilterMembership<T(!new), U(!new)>(xs: seq<T>, p: T -> bool, f: T -> U)
    ensures forall y :: y in Map(Filter(xs, p), f) <==> exists x :: x in xs && p(x) && y == f(x)
  {
    var kept := Filter(xs, p);
    var image := Map(kept, f);
    FilterMembership(xs, p);
    forall y | y in image ensures exists x :: x in xs && p(x) && y == f(x) {
      var k :| 0 <= k < |image| && image[k] == y;
      assert kept[k] in kept;
    }
    forall y | exists x :: x in xs && p(x) && y == f(x) ensures y in image {
      var x :| x in xs && p(x) && y == f(x);
      var k :| 0 <= k < |kept| && kept[k] == x;
      assert image[k] == y;
    }
  }

  /** Index of the first element satisfying `p`, or |xs| when none does:
      the meaning of a loop with an early `break` or `return`. */
  function FirstIndex<T>(xs: seq<T>, p: T -> bool): (k: nat)
    ensures k <= |xs|
    ensures k < |xs| ==> p(xs[k])
    ensures forall j :: 0 <= j < k ==> !p(xs[j])
  {
    if xs == [] then 0 else if p(xs[0]) then 0 else 1 + FirstIndex(xs[1..], p)
  }

  ghost predicate NoDuplicates<T>(xs: seq<T>) {
    forall i, j :: 0 <= i < j < |xs| ==> xs[i] != xs[j]
  }

  /** `r` is `xs` with some elements deleted, the rest kept in order. */
  ghost predicate IsSubsequence<T>(r: seq<T>, xs: seq<T>)
    decreases |xs|
  {
    if r == [] then true
    else if xs == [] then false
    else (r[|r| - 1] == xs[|xs| - 1] && IsSubsequence(r[..|r| - 1], xs[..|xs| - 1]))
         || IsSubsequence(r, xs[..|xs| - 1])
  }

  lemma {:induction false} SubsequenceElements<T>(r: seq<T>, xs: seq<T>)
    requires IsSubsequence(r, xs)
    ensures forall x :: x in r ==> x in xs
    decreases |xs|
  {
    if r != [] {
      var xs' := xs[..|xs| - 1];
      if r[|r| - 1] == xs[|xs| - 1] && IsSubsequence(r[..|r| - 1], xs') {
        SubsequenceElements(r[..|r| - 1], xs');
        assert r == r[..|r| - 1] + [r[|r| - 1]];
        assert xs == xs' + [xs[|xs| - 1]];
      } else {
        SubsequenceElements(r, xs');
        assert xs == xs' + [xs[|xs| - 1]];
      }
    }
  }

  /** A filter keeps database order. */
  lemma {:induction false} FilterIsSubsequence<T>(xs: seq<T>, p: T -> bool)
    ensures IsSubsequence(Filter(xs, p), xs)
    decreases |xs|
  {
    if xs != [] {
      var xs' := xs[..|xs| - 1];
      FilterIsSubsequence(xs', p);
      var r := Filter(xs, p);
      if p(xs[|xs| - 1]) {
        assert r[..|r| - 1] == Filter(xs', p);
      } else {
        assert r == Filter(xs', p);
        if r != [] {
          SubsequenceStepRight(r, xs');
        }
      }
    }
  }

  lemma SubsequenceStepRight<T>(r: seq<T>, xs': seq<T>)
    requires r != [] && IsSubsequence(r, xs')
    ensures forall x :: IsSubsequence(r, xs' + [x])
  {
    forall x ensures IsSubsequence(r, xs' + [x]) {
      assert (xs' + [x])[..|xs' + [x]| - 1] == xs';
    }
  }

  /** Deleting elements cannot introduce a duplicate. */
  lemma {:induction false} SubsequenceNoDuplicates<T>(r: seq<T>, xs: seq<T>)
    requires IsSubsequence(r, xs) && NoDuplicates(xs)
    ensures NoDuplicates(r)
    decreases |xs|
  {
    if r != [] {
      var xs' := xs[..|xs| - 1];
      var r' := r[..|r| - 1];
      assert NoDuplicates(xs');
      if r[|r| - 1] == xs[|xs| - 1] && IsSubsequence(r', xs') {
        SubsequenceNoDuplicates(r', xs');
        SubsequenceElements(r', xs');
        assert xs[|xs| - 1] !in xs';
        forall i, j | 0 <= i < j < |r| ensures r[i] != r[j] {
          if j == |r| - 1 {
            assert r[i] in r';
          } else {
            assert r[i] == r'[i] && r[j] == r'[j];
          }
        }
      } else {
        SubsequenceNoDuplicates(r, xs');
      }
    }
  }
}
