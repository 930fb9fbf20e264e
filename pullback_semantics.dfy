/**
  What three of the emitted derivative bodies compute, read over the real
  numbers: the two forms of the `abs` derivative (the scalar conditional and
  the lane-wise `replacing(with:where:)`), and the pair pullbacks of `atan2`
  and `hypot`. A division the emitted code performs by zero, which yields NaN
  in floating point, is `None` here.
 */
module PullbackSemantics {
  import opened Records

  // ---------------------------------------------------------------------
  // abs
  // ---------------------------------------------------------------------

  /** `x < 0 ? -x : x`, the value of the scalar conditional. */
  function ScalarAbs(x: real): real
  {
    if x < 0.0 then -x else x
  }

  /** `x < 0 ? .zero - v : v`, the pullback of the scalar conditional. */
  function ScalarAbsPullback(x: real, v: real): real
  {
    if x < 0.0 then 0.0 - v else v
  }

  /** `abs(x)` lane by lane. */
  function LaneAbs(x: seq<real>): (r: seq<real>)
    ensures |r| == |x|
  {
    seq(|x|, i requires 0 <= i < |x| => if x[i] < 0.0 then -x[i] else x[i])
  }

  /** `v.replacing(with: -v, where: x .< .zero)`: `-v` in the lanes where `x` is negative, `v` elsewhere. */
  function LaneAbsPullback(x: seq<real>, v: seq<real>): (r: seq<real>)
    requires |x| == |v|
    ensures |r| == |v|
  {
    seq(|v|, i requires 0 <= i < |v| => if x[i] < 0.0 then -v[i] else v[i])
  }

  /** The sign of a non-zero real. */
  function Sign(x: real): real
  {
    if x < 0.0 then -1.0 else 1.0
  }

  /**
    The scalar form is the derivative of the absolute value: the value is
    `x` times its sign, never negative, and the pullback scales the cotangent
    by that sign; at zero the value is `x` and the pullback passes `v` through.
   */
  lemma ScalarAbsIsDerivative(x: real, v: real)
    ensures ScalarAbs(x) == Sign(x) * x && ScalarAbs(x) >= 0.0
    ensures ScalarAbsPullback(x, v) == Sign(x) * v
    ensures x == 0.0 ==> ScalarAbs(x) == x && ScalarAbsPullback(x, v) == v
  {
  }

  /** The lane-wise form computes, in every lane, what the scalar form computes. */
  lemma LanesAgreeWithScalar(x: seq<real>, v: seq<real>)
    requires |x| == |v|
    ensures forall i :: 0 <= i < |x| ==> LaneAbs(x)[i] == ScalarAbs(x[i])
    ensures forall i :: 0 <= i < |x| ==> LaneAbsPullback(x, v)[i] == ScalarAbsPullback(x[i], v[i])
  {
  }

  /** At `[-2, -2]` the value is `[2, 2]` and the pullback of `[1, 1]` is `[-1, -1]`. */
  lemma LaneAbsAtMinusTwo()
    ensures LaneAbs([-2.0, -2.0]) == [2.0, 2.0]
    ensures LaneAbsPullback([-2.0, -2.0], [1.0, 1.0]) == [-1.0, -1.0]
  {
    assert LaneAbs([-2.0, -2.0])[0] == 2.0;
    assert LaneAbs([-2.0, -2.0])[1] == 2.0;
    assert LaneAbsPullback([-2.0, -2.0], [1.0, 1.0])[0] == -1.0;
    assert LaneAbsPullback([-2.0, -2.0], [1.0, 1.0])[1] == -1.0;
  }

  // ---------------------------------------------------------------------
  // atan2 and hypot
  // ---------------------------------------------------------------------

  /** `x * x + y * y`, the denominator of the `atan2` pullback. */
  function SumOfSquares(x: real, y: real): real
  {
    x * x + y * y
  }

  /**
    The pullback of `atan2(y:x:)`, cotangents in parameter order (`y` first):
    `(v * x / c, -v * y / c)` with `c = x * x + y * y`. Where `c` is zero the
    emitted code divides by zero and there is no pullback; elsewhere the two
    cotangents are the quotients of `v * x` and `-v * y` by `c`.
   */
  function Atan2Pullback(y: real, x: real, v: real): (r: Option<(real, real)>)
    ensures r.Some? <==> SumOfSquares(x, y) != 0.0
    ensures r.Some? ==> r.value.0 * SumOfSquares(x, y) == v * x && r.value.1 * SumOfSquares(x, y) == -v * y
  {
    var c := SumOfSquares(x, y);
    if c == 0.0 then None else Some((v * x / c, -v * y / c))
  }

  /** Multiplying by a non-zero `c` is injective. */
  lemma CancelFactor(g: real, h: real, c: real)
    requires c != 0.0 && g * c == h * c
    ensures g == h
  {
    assert g == (g * c) / c;
  }

  /** The quotient of `a * w` by `c` is `a` times the quotient of `w`. */
  lemma ScaledQuotient(g: real, h: real, a: real, w: real, c: real)
    requires c != 0.0 && g * c == w && h * c == a * w
    ensures h == a * g
  {
    assert (a * g) * c == a * (g * c);
    CancelFactor(h, a * g, c);
  }

  /** Quotients of `v * x` and `-v * y` by `c` are orthogonal to `(y, x)`. */
  lemma QuotientsOrthogonal(gy: real, gx: real, y: real, x: real, c: real, v: real)
    requires c != 0.0 && gy * c == v * x && gx * c == -v * y
    ensures gy * y + gx * x == 0.0
  {
    assert (gy * y + gx * x) * c == (gy * c) * y + (gx * c) * x;
    assert (v * x) * y + (-v * y) * x == 0.0;
    CancelFactor(gy * y + gx * x, 0.0, c);
  }

  /**
    Where defined, the cotangent is orthogonal to the point `(y, x)`, as
    `atan2` is constant along rays from the origin.
   */
  lemma Atan2PullbackTangent(y: real, x: real, v: real)
    requires SumOfSquares(x, y) != 0.0
    ensures var r := Atan2Pullback(y, x, v); r.Some? && r.value.0 * y + r.value.1 * x == 0.0
  {
    var r := Atan2Pullback(y, x, v);
    QuotientsOrthogonal(r.value.0, r.value.1, y, x, SumOfSquares(x, y), v);
  }

  /** Where defined, the pullback is linear in the cotangent `v`. */
  lemma Atan2PullbackLinear(y: real, x: real, v: real, a: real)
    requires SumOfSquares(x, y) != 0.0
    ensures var r, s := Atan2Pullback(y, x, v), Atan2Pullback(y, x, a * v);
      s.Some? && s.value.0 == a * r.value.0 && s.value.1 == a * r.value.1
  {
    var c := SumOfSquares(x, y);
    var r := Atan2Pullback(y, x, v);
    var s := Atan2Pullback(y, x, a * v);
    assert (a * v) * x == a * (v * x);
    assert -(a * v) * y == a * (-v * y);
    ScaledQuotient(r.value.0, s.value.0, a, v * x, c);
    ScaledQuotient(r.value.1, s.value.1, a, -v * y, c);
  }

  /** At the origin the emitted code divides zero by zero: no pullback. */
  lemma Atan2AtOrigin(v: real)
    ensures Atan2Pullback(0.0, 0.0, v) == None
  {
  }

  /** At `y = 1, x = 0` the pullback of `1` is `(0, -1)`. */
  lemma Atan2AtOneZero()
    ensures Atan2Pullback(1.0, 0.0, 1.0) == Some((0.0, -1.0))
  {
  }

  /**
    The pullback of `hypot(x, y)`: `(v * x / c, v * y / c)` with `c` the
    square root of `x * x + y * y`, given here as a parameter: non-negative,
    with `c * c == x * x + y * y`. At `c == 0` there is no pullback.
   */
  function HypotPullback(x: real, y: real, c: real, v: real): (r: Option<(real, real)>)
    requires c >= 0.0 && c * c == SumOfSquares(x, y)
    ensures r.Some? <==> c != 0.0
    ensures r.Some? ==> r.value.0 * c == v * x && r.value.1 * c == v * y
  {
    if c == 0.0 then None else Some((v * x / c, v * y / c))
  }

  lemma QuotientsRadial(gx: real, gy: real, x: real, y: real, c: real, v: real)
    requires c != 0.0 && c * c == SumOfSquares(x, y)
    requires gx * c == v * x && gy * c == v * y
    ensures x * gx + y * gy == v * c
  {
    assert (x * gx + y * gy) * c == x * (gx * c) + y * (gy * c);
    assert x * (v * x) + y * (v * y) == v * SumOfSquares(x, y);
    assert (v * c) * c == v * (c * c);
    CancelFactor(x * gx + y * gy, v * c, c);
  }

  /**
    Where the hypotenuse is not zero the pullback points along `(x, y)`:
    `x * gx + y * gy == v * c`, Euler's identity for a function homogeneous
    of degree one.
   */
  lemma HypotPullbackRadial(x: real, y: real, c: real, v: real)
    requires c > 0.0 && c * c == SumOfSquares(x, y)
    ensures var r := HypotPullback(x, y, c, v); r.Some? && x * r.value.0 + y * r.value.1 == v * c
  {
    var r := HypotPullback(x, y, c, v);
    QuotientsRadial(r.value.0, r.value.1, x, y, c, v);
  }

  /** At `(3, 4)`, where the hypotenuse is `5`, the pullback of `1` is `(3/5, 4/5)`. */
  lemma HypotAtThreeFour()
    ensures HypotPullback(3.0, 4.0, 5.0, 1.0) == Some((0.6, 0.8))
  {
  }
}
