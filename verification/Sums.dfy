/** Finite sums of real numbers, and sequences up to the order of their elements. */
module Sums {
  import opened Reals

  function Sum(xs: seq<real>): real {
    if xs == [] then 0.0 else Sum(xs[..|xs| - 1]) + xs[|xs| - 1]
  }

  function Map<T, U>(f: T -> U, xs: seq<T>): (ys: seq<U>)
    ensures |ys| == |xs| && forall i | 0 <= i < |xs| :: ys[i] == f(xs[i])
  {
    seq(|xs|, i requires 0 <= i < |xs| => f(xs[i]))
  }

  lemma {:induction false} SumConcat(xs: seq<real>, ys: seq<real>)
    ensures Sum(xs + ys) == Sum(xs) + Sum(ys)
  {
    if ys == [] {
      assert xs + ys == xs;
    } else {
      var n := |ys| - 1;
      SumConcat(xs, ys[..n]);
      assert (xs + ys)[..|xs + ys| - 1] == xs + ys[..n];
    }
  }

  lemma Sums1(xs: seq<real>)
    requires |xs| == 1
    ensures Sum(xs) == xs[0]
  {
    assert xs[..0] == [];
  }

  lemma Sums2(xs: seq<real>)
    requires |xs| == 2
    ensures Sum(xs) == xs[0] + xs[1]
  {
    Sums1(xs[..1]);
  }

  lemma {:induction false} SumTakesOut(xs: seq<real>, k: nat)
    requires k < |xs|
    ensures Sum(xs) == Sum(xs[..k] + xs[k + 1..]) + xs[k]
  {
    var n, rest := |xs| - 1, xs[..k] + xs[k + 1..];
    if k == n {
      assert rest == xs[..n];
    } else {
      SumTakesOut(xs[..n], k);
      assert rest[..n - 1] == xs[..n][..k] + xs[..n][k + 1..];
    }
  }

  lemma {:induction false} SumOfZeros(xs: seq<real>)
    requires forall i | 0 <= i < |xs| :: xs[i] == 0.0
    ensures Sum(xs) == 0.0
  {
    if xs != [] {
      SumOfZeros(xs[..|xs| - 1]);
    }
  }

  lemma {:induction false} SumPositive(xs: seq<real>)
    requires forall i | 0 <= i < |xs| :: xs[i] > 0.0
    ensures Sum(xs) >= 0.0 && (xs != [] ==> Sum(xs) > 0.0)
    ensures forall i | 0 <= i < |xs| :: xs[i] <= Sum(xs) && (|xs| > 1 ==> xs[i] < Sum(xs))
  {
    if xs != [] {
      var n := |xs| - 1;
      SumPositive(xs[..n]);
      forall i | 0 <= i < n ensures xs[i] < Sum(xs) {
        assert xs[..n][i] == xs[i];
      }
    }
  }

  lemma SumUpdate(xs: seq<real>, k: nat, y: real)
    requires k < |xs|
    ensures Sum(xs[k := y]) == Sum(xs) - xs[k] + y
  {
    SumTakesOut(xs, k);
    SumTakesOut(xs[k := y], k);
    assert xs[k := y][..k] + xs[k := y][k + 1..] == xs[..k] + xs[k + 1..];
  }

  /** Each of `ys` is `factor` times its partner in `xs`. */
  ghost predicate Scaled(ys: seq<real>, xs: seq<real>, factor: real)
    decreases |xs|
  {
    && |ys| == |xs|
    && (xs != [] ==> ys[|xs| - 1] == xs[|xs| - 1] * factor && Scaled(ys[..|xs| - 1], xs[..|xs| - 1], factor))
  }

  lemma ScaledStep(ys: seq<real>, xs: seq<real>, factor: real, n: nat)
    requires |ys| == |xs| == n + 1 && Scaled(ys[..n], xs[..n], factor) && ys[n] == xs[n] * factor
    ensures Scaled(ys, xs, factor)
  {
  }

  lemma {:induction false} ScaledAt(ys: seq<real>, xs: seq<real>, factor: real, i: nat)
    requires Scaled(ys, xs, factor) && i < |xs|
    ensures |ys| == |xs| && ys[i] == xs[i] * factor
  {
    if i < |xs| - 1 {
      ScaledAt(ys[..|xs| - 1], xs[..|xs| - 1], factor, i);
    }
  }

  lemma {:induction false} SumScaled(xs: seq<real>, ys: seq<real>, c: real)
    requires Scaled(ys, xs, c)
    ensures Sum(ys) == Sum(xs) * c
  {
    if xs != [] {
      var n := |xs| - 1;
      SumScaled(xs[..n], ys[..n], c);
      Distributes(Sum(xs[..n]), xs[n], c);
    }
  }

  // ---- order does not matter --------------------------------------------------------

  /** The same elements, each as often. */
  predicate Permuted<T(==)>(xs: seq<T>, ys: seq<T>) { multiset(xs) == multiset(ys) }

  /** Taking the last element of `xs` out of both leaves permuted sequences. */
  lemma TakeOut<T>(xs: seq<T>, ys: seq<T>) returns (k: nat)
    requires Permuted(xs, ys) && xs != []
    ensures k < |ys| && ys[k] == xs[|xs| - 1]
    ensures Permuted(xs[..|xs| - 1], ys[..k] + ys[k + 1..])
  {
    var x := xs[|xs| - 1];
    assert x in multiset(ys);
    k :| 0 <= k < |ys| && ys[k] == x;
    assert xs == xs[..|xs| - 1] + [x];
    assert ys == (ys[..k] + [x]) + ys[k + 1..];
    assert multiset(ys[..k] + ys[k + 1..]) == multiset(ys) - multiset{x};
    assert multiset(xs[..|xs| - 1]) == multiset(xs) - multiset{x};
  }

  lemma SameLength<T>(xs: seq<T>, ys: seq<T>)
    requires Permuted(xs, ys)
    ensures |xs| == |ys|
  {
    assert |multiset(xs)| == |multiset(ys)|;
  }

  lemma {:induction false} SumPermuted(xs: seq<real>, ys: seq<real>)
    requires Permuted(xs, ys)
    ensures Sum(xs) == Sum(ys)
  {
    SameLength(xs, ys);
    if xs != [] {
      var k := TakeOut(xs, ys);
      SumPermuted(xs[..|xs| - 1], ys[..k] + ys[k + 1..]);
      SumTakesOut(ys, k);
    }
  }

  lemma {:induction false} MapPermuted<T, U>(f: T -> U, xs: seq<T>, ys: seq<T>)
    requires Permuted(xs, ys)
    ensures Permuted(Map(f, xs), Map(f, ys))
  {
    SameLength(xs, ys);
    if xs != [] {
      var n := |xs| - 1;
      var k := TakeOut(xs, ys);
      MapPermuted(f, xs[..n], ys[..k] + ys[k + 1..]);
      var fx, fy := Map(f, xs), Map(f, ys);
      assert fx == Map(f, xs[..n]) + [f(xs[n])];
      assert fy == fy[..k] + [f(xs[n])] + fy[k + 1..];
      assert Map(f, ys[..k] + ys[k + 1..]) == fy[..k] + fy[k + 1..];
    } else {
      assert Map(f, xs) == Map(f, ys);
    }
  }
}
