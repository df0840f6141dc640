/** Order-preserving selection and element-wise transformation of sequences. */
module Seqs {

  /** The elements of `xs` for which `keep` holds, in their original order
      (a Python list comprehension with an `if`, or a `for` loop with `continue`). */
  function Filter<T>(xs: seq<T>, keep: T -> bool): (r: seq<T>)
    ensures |r| <= |xs|
    ensures forall i :: 0 <= i < |r| ==> r[i] in xs && keep(r[i])
    ensures forall i :: 0 <= i < |xs| && keep(xs[i]) ==> xs[i] in r
  {
    if xs == [] then []
    else
      var init := Filter(xs[..|xs| - 1], keep);
      var last := xs[|xs| - 1];
      assert xs == xs[..|xs| - 1] + [last];
      if keep(last) then init + [last] else init
  }

  /** Filtering commutes with concatenation: what is kept from the front stays in
      front of what is kept from the back, so the original order is preserved. */
  lemma {:induction false} FilterAppend<T>(a: seq<T>, b: seq<T>, keep: T -> bool)
    ensures Filter(a + b, keep) == Filter(a, keep) + Filter(b, keep)
    decreases |b|
  {
    if b == [] {
      assert a + b == a;
    } else {
      assert (a + b)[..|a + b| - 1] == a + b[..|b| - 1];
      FilterAppend(a, b[..|b| - 1], keep);
    }
  }

  /** `f` applied to every element of `xs`, in order. */
  function Map<T, U>(xs: seq<T>, f: T -> U): (r: seq<U>)
    ensures |r| == |xs|
    ensures forall i :: 0 <= i < |xs| ==> r[i] == f(xs[i])
  {
    if xs == [] then [] else Map(xs[..|xs| - 1], f) + [f(xs[|xs| - 1])]
  }

  lemma MapAppend<T, U>(a: seq<T>, b: seq<T>, f: T -> U)
    ensures Map(a + b, f) == Map(a, f) + Map(b, f)
  {
    var l, r := Map(a + b, f), Map(a, f) + Map(b, f);
    forall i | 0 <= i < |l|
      ensures l[i] == r[i]
    {
      if i < |a| {
        assert (a + b)[i] == a[i];
      } else {
        assert (a + b)[i] == b[i - |a|];
      }
    }
  }

  /** `f` applied to the elements of `xs` that `keep` selects, in one pass. */
  function FilterMap<T, U>(xs: seq<T>, keep: T -> bool, f: T -> U): seq<U> {
    if xs == [] then []
    else
      var last := xs[|xs| - 1];
      FilterMap(xs[..|xs| - 1], keep, f) + (if keep(last) then [f(last)] else [])
  }

  /** The one-pass form is selecting, then transforming. */
  lemma {:induction false} FilterMapIsMapFilter<T, U>(xs: seq<T>, keep: T -> bool, f: T -> U)
    ensures FilterMap(xs, keep, f) == Map(Filter(xs, keep), f)
    decreases |xs|
  {
    if xs != [] {
      var init, last := xs[..|xs| - 1], xs[|xs| - 1];
      FilterMapIsMapFilter(init, keep, f);
      if keep(last) {
        MapAppend(Filter(init, keep), [last], f);
      }
    }
  }

  /** Extending the input by one element extends the output by that element's
      image, if it is kept. */
  lemma FilterMapSnoc<T, U>(xs: seq<T>, j: nat, keep: T -> bool, f: T -> U)
    requires j < |xs|
    ensures FilterMap(xs[..j + 1], keep, f)
            == FilterMap(xs[..j], keep, f) + (if keep(xs[j]) then [f(xs[j])] else [])
  {
    assert xs[..j + 1][..j] == xs[..j];
  }

  /** Selecting and transforming `a + b` is doing so to `a`, then to `b`. */
  lemma {:induction false} FilterMapAppend<T, U>(a: seq<T>, b: seq<T>, keep: T -> bool, f: T -> U)
    ensures FilterMap(a + b, keep, f) == FilterMap(a, keep, f) + FilterMap(b, keep, f)
    decreases |b|
  {
    if b == [] {
      assert a + b == a;
    } else {
      assert (a + b)[..|a + b| - 1] == a + b[..|b| - 1];
      FilterMapAppend(a, b[..|b| - 1], keep, f);
    }
  }
}
