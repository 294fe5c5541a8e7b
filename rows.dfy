/** Element-wise operations on latent vectors.
    These stand in for the Eigen row operations the trainer uses: the row
    update `row -= learn_rate * grad`, the accumulation `ag += grad.cwiseProduct(grad)`
    and the rescaling `grad.cwiseQuotient(ag.cwiseSqrt() + beta)`.
    Floating point is not modelled: values are mathematical reals. */
module Rows {

  type Vector = seq<real>

  /** `x - lr * g`, one coordinate at a time. */
  function Step(x: Vector, lr: real, g: Vector): (r: Vector)
    requires |x| == |g|
    ensures |r| == |x|
  {
    seq(|x|, k => if 0 <= k < |x| then x[k] - lr * g[k] else 0.0)
  }

  /** A scalar step by a gradient whose value is `gk`. Callers pass the
      gradient's value as `gk`, so the product `lr * gk` is formed in this
      small lemma and not in the caller's larger proof context. */
  lemma StepBy(x: real, lr: real, g: real, gk: real)
    requires g == gk
    ensures x - lr * g == x - lr * gk
  {
  }

  /** Coordinate `k` of a step whose gradient there is `gk`; like `StepBy`, it
      keeps the substitution of `gk` under `lr *` out of the caller's proof. */
  lemma StepAt(x: Vector, lr: real, g: Vector, k: nat, gk: real)
    requires |x| == |g| && k < |x| && g[k] == gk
    ensures Step(x, lr, g)[k] == x[k] - lr * gk
  {
  }

  /** `acc + g.cwiseProduct(g)`: each coordinate grows by the square of its own
      gradient coordinate. */
  function Accumulate(acc: Vector, g: Vector): (r: Vector)
    requires |acc| == |g|
    ensures |r| == |acc|
  {
    seq(|acc|, k => if 0 <= k < |acc| then acc[k] + g[k] * g[k] else 0.0)
  }

  /** Real division. A zero denominator, for which IEEE arithmetic would give
      an infinity or NaN, yields 0.0 here. */
  function Quot(a: real, b: real): real
  {
    if b == 0.0 then 0.0 else a / b
  }

  /** `g.cwiseQuotient(acc.cwiseSqrt() + beta)`: each coordinate divided by the
      square root of its own accumulator coordinate plus `beta`. */
  function Rescale(g: Vector, acc: Vector, beta: real, sqrt: real -> real): (r: Vector)
    requires |g| == |acc|
    ensures |r| == |g|
  {
    seq(|g|, k => if 0 <= k < |g| then Quot(g[k], sqrt(acc[k]) + beta) else 0.0)
  }

  /** What the model assumes of `std::sqrt` on non-negative arguments. */
  ghost predicate SqrtContract(sqrt: real -> real)
  {
    forall x :: 0.0 <= x ==> 0.0 <= sqrt(x) && sqrt(x) * sqrt(x) == x
  }

  predicate NonNeg(v: Vector)
  {
    forall k :: 0 <= k < |v| ==> 0.0 <= v[k]
  }

  /** Coordinate-wise `v <= w`. */
  predicate Le(v: Vector, w: Vector)
  {
    |v| == |w| && forall k :: 0 <= k < |v| ==> v[k] <= w[k]
  }

  lemma SquareNonNeg(x: real)
    ensures 0.0 <= x * x
  {
    if x < 0.0 {
      assert 0.0 < -x;
      assert 0.0 < (-x) * (-x);
    }
  }

  /** Accumulating squares never lowers a coordinate, so it keeps an
      accumulator non-negative. */
  lemma AccumulateGrows(acc: Vector, g: Vector)
    requires |acc| == |g|
    ensures Le(acc, Accumulate(acc, g))
    ensures NonNeg(acc) ==> NonNeg(Accumulate(acc, g))
  {
    forall k | 0 <= k < |g| ensures acc[k] <= Accumulate(acc, g)[k] {
      SquareNonNeg(g[k]);
    }
  }

  /** Coordinate `k` of an AdaGrad step: the accumulator grows by `g[k]` squared
      and the parameter moves by `g[k]` over `beta` plus the grown root. */
  lemma AdaGradStepAt(x: Vector, lr: real, g: Vector, acc: Vector, beta: real, sqrt: real -> real, k: nat, gk: real)
    requires |x| == |g| == |acc| && k < |x| && g[k] == gk
    ensures Accumulate(acc, g)[k] == acc[k] + gk * gk
    ensures Step(x, lr, Rescale(g, Accumulate(acc, g), beta, sqrt))[k] ==
            x[k] - lr * Quot(gk, sqrt(acc[k] + gk * gk) + beta)
  {
  }

  /** `q` has the sign of `g` (including zero) and magnitude below one. */
  predicate SameSignBelowOne(g: real, q: real)
  {
    (0.0 < g <==> 0.0 < q) && (g < 0.0 <==> q < 0.0) && -1.0 < q < 1.0
  }

  /** Squaring is strictly increasing on the non-negative reals. */
  lemma SquareGrows(a: real, b: real)
    requires 0.0 <= a
    ensures a < b ==> a * a < b * b
  {
    if a < b {
      var aa, ab, bb := a * a, a * b, b * b;
      assert aa <= ab;
      assert ab < bb;
    }
  }

  /** The square root of a number at least `g * g` is at least `|g|`. */
  lemma SqrtDominates(g: real, acc: real, sqrt: real -> real)
    requires SqrtContract(sqrt)
    requires g * g <= acc
    ensures -sqrt(acc) <= g <= sqrt(acc)
  {
    var s := sqrt(acc);
    assert 0.0 <= s && s * s == acc;
    SquareGrows(s, g);
    SquareGrows(s, -g);
    assert (-g) * (-g) == g * g;
  }

  /** Dividing by the square root of an accumulator that holds at least the
      square of `g`, plus a positive `beta`, keeps the sign of `g` and brings
      it below one in magnitude. */
  lemma RescaleKeepsSign(g: real, acc: real, beta: real, sqrt: real -> real)
    requires SqrtContract(sqrt)
    requires 0.0 < beta && g * g <= acc
    ensures SameSignBelowOne(g, Quot(g, sqrt(acc) + beta))
  {
    SqrtDominates(g, acc, sqrt);
    var d := sqrt(acc) + beta;
    assert -d < g < d;
    var q := g / d;
    assert q * d == g;
  }

  /** `e` keeps the sign of `g` in every coordinate, each below one in
      magnitude. */
  predicate KeepsSigns(g: Vector, e: Vector)
  {
    |g| == |e| && forall k :: 0 <= k < |g| ==> SameSignBelowOne(g[k], e[k])
  }

  /** Every coordinate of `acc` is at least the square of the same coordinate
      of `g`. */
  predicate Dominates(acc: Vector, g: Vector)
  {
    |acc| == |g| && forall k :: 0 <= k < |g| ==> g[k] * g[k] <= acc[k]
  }

  /** A non-negative accumulator that has grown by the squares of `g`
      dominates `g`, and so does anything above it. */
  lemma AccumulateDominates(acc: Vector, g: Vector)
    requires |acc| == |g| && NonNeg(acc)
    ensures Dominates(Accumulate(acc, g), g)
  {
  }

  lemma DominatesAbove(acc: Vector, more: Vector, g: Vector)
    requires Dominates(acc, g) && Le(acc, more)
    ensures Dominates(more, g)
  {
  }

  /** The AdaGrad rescaling of one row: by an accumulator that dominates the
      gradient and a positive `beta`, every coordinate keeps its sign and
      comes out below one in magnitude. */
  lemma RescaleKeepsSigns(g: Vector, acc: Vector, beta: real, sqrt: real -> real)
    requires SqrtContract(sqrt) && 0.0 < beta && Dominates(acc, g)
    ensures KeepsSigns(g, Rescale(g, acc, beta, sqrt))
  {
    forall k | 0 <= k < |g| ensures SameSignBelowOne(g[k], Rescale(g, acc, beta, sqrt)[k]) {
      RescaleKeepsSign(g[k], acc[k], beta, sqrt);
    }
  }
}
