/** Shared vocabulary of both quote engines: optional values and sums over sequences. */
module Common {

  /** A value that may be absent. For a form field or catalog entry read with JavaScript's
      `Number(...)`, `None` stands for a result that is not a finite number (NaN). */
  datatype Option<+T> = None | Some(value: T) {
    /** The value, or `default` when absent (JavaScript's `??`). */
    function GetOr(default: T): T
    {
      match this
      case Some(v) => v
      case None => default
    }
  }

  /** Sum of `f` over `xs`, accumulated left to right like `Array.prototype.reduce`. */
  function SumBy<T>(xs: seq<T>, f: T -> real): real
  {
    if xs == [] then 0.0 else SumBy(xs[..|xs| - 1], f) + f(xs[|xs| - 1])
  }

  /** Regrouping a product of three factors. */
  lemma MulRegroup(a: real, b: real, c: real)
    ensures a * (b * c) == (a * b) * c
  {
  }

  /** The sum over one element is that element's value. */
  lemma SumBySingleton<T>(x: T, f: T -> real)
    ensures SumBy([x], f) == f(x)
  {
    assert [x][..0] == [];
  }

  /** A sum over a concatenation is the sum of the two sums. */
  lemma {:induction false} SumByAppend<T>(xs: seq<T>, ys: seq<T>, f: T -> real)
    ensures SumBy(xs + ys, f) == SumBy(xs, f) + SumBy(ys, f)
    decreases |ys|
  {
    if ys == [] {
      assert xs + ys == xs;
    } else {
      var last := ys[|ys| - 1];
      assert (xs + ys)[..|xs + ys| - 1] == xs + ys[..|ys| - 1];
      SumByAppend(xs, ys[..|ys| - 1], f);
    }
  }

  /** Summing `g` where every element satisfies `g(x) == (f(x) + h(x)) * k` gives `(sum f + sum h) * k`. */
  lemma {:induction false} SumByScaled<T>(xs: seq<T>, f: T -> real, h: T -> real, g: T -> real, k: real)
    requires forall i :: 0 <= i < |xs| ==> g(xs[i]) == (f(xs[i]) + h(xs[i])) * k
    ensures SumBy(xs, g) == (SumBy(xs, f) + SumBy(xs, h)) * k
    decreases |xs|
  {
    if xs != [] {
      var init := xs[..|xs| - 1];
      SumByScaled(init, f, h, g, k);
    }
  }

  /** A sum of non-negative terms is non-negative. */
  lemma {:induction false} SumByNonNegative<T>(xs: seq<T>, f: T -> real)
    requires forall i :: 0 <= i < |xs| ==> f(xs[i]) >= 0.0
    ensures SumBy(xs, f) >= 0.0
    decreases |xs|
  {
    if xs != [] {
      SumByNonNegative(xs[..|xs| - 1], f);
    }
  }

  lemma PositiveProduct(a: real, b: real)
    requires a > 0.0 && b > 0.0
    ensures a * b > 0.0
  {
  }

  lemma NonNegativeProduct(a: real, b: real)
    requires a >= 0.0 && b >= 0.0
    ensures a * b >= 0.0
  {
  }
}
