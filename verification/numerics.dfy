/** Scalar helpers shared by the perception, event and actuator models.

    The rover code works on numpy arrays of floats. Two numpy behaviours matter
    to the control logic and are modelled here exactly:
    - the mean of an empty array is NaN, and every ordered comparison with NaN
      is false;
    - arithmetic and np.clip propagate NaN.
    Everything else is modelled over exact reals (no rounding). */
module Numerics {

  datatype Option<T> = None | Some(value: T)

  /** A float that is either a number or NaN (the only non-finite value the
      rover logic can produce: the mean of an empty pixel set). */
  datatype Float = Num(val: real) | NaN

  function Sum(s: seq<real>): real
  {
    if |s| == 0 then 0.0 else s[0] + Sum(s[1..])
  }

  /** np.mean: NaN exactly on the empty sequence. */
  function Mean(s: seq<real>): (m: Float)
    ensures m.NaN? <==> |s| == 0
    ensures m.Num? ==> m.val == Sum(s) / (|s| as real)
  {
    if |s| == 0 then NaN else Num(Sum(s) / (|s| as real))
  }

  /** x < c, false when x is NaN. */
  predicate Lt(x: Float, c: real) { x.Num? && x.val < c }
  /** x <= c, false when x is NaN. */
  predicate Le(x: Float, c: real) { x.Num? && x.val <= c }
  /** x > c, false when x is NaN. */
  predicate Gt(x: Float, c: real) { x.Num? && x.val > c }
  /** x >= c, false when x is NaN. */
  predicate Ge(x: Float, c: real) { x.Num? && x.val >= c }

  /** a * x + b, NaN when x is NaN. */
  function Affine(x: Float, a: real, b: real): (y: Float)
    ensures y.NaN? <==> x.NaN?
  {
    match x
    case NaN => NaN
    case Num(v) => Num(a * v + b)
  }

  /** np.clip(x, lo, hi) = minimum(maximum(x, lo), hi), NaN-propagating. */
  function Clip(x: Float, lo: real, hi: real): (y: Float)
    requires lo <= hi
    ensures y.NaN? <==> x.NaN?
    ensures y.Num? ==> lo <= y.val <= hi
    ensures x.Num? && lo <= x.val <= hi ==> y == x
    ensures x.Num? && x.val < lo ==> y == Num(lo)
    ensures x.Num? && x.val > hi ==> y == Num(hi)
  {
    match x
    case NaN => NaN
    case Num(v) => Num(if v < lo then lo else if v > hi then hi else v)
  }

  /** np.clip on integers. */
  function ClipInt(v: int, lo: int, hi: int): (w: int)
    requires lo <= hi
    ensures lo <= w <= hi
    ensures lo <= v <= hi ==> w == v
  {
    if v < lo then lo else if v > hi then hi else v
  }

  /** np.int_ of a float: truncation toward zero (not Dafny's floor). */
  function Trunc(x: real): (n: int)
    ensures x >= 0.0 ==> n as real <= x < n as real + 1.0
    ensures x < 0.0 ==> n as real - 1.0 < x <= n as real
  {
    if x >= 0.0 then x.Floor else -((-x).Floor)
  }

  /** Every element of a sequence is above c. */
  predicate AllAbove(s: seq<real>, c: real)
  {
    forall k :: 0 <= k < |s| ==> s[k] > c
  }

  lemma {:induction false} SumPositive(s: seq<real>)
    requires |s| > 0 && AllAbove(s, 0.0)
    ensures Sum(s) > 0.0
  {
    if |s| > 1 {
      assert AllAbove(s[1..], 0.0) by {
        forall k | 0 <= k < |s[1..]| ensures s[1..][k] > 0.0 { assert s[1..][k] == s[k + 1]; }
      }
      SumPositive(s[1..]);
    } else {
      assert s[1..] == [];
    }
  }

  /** The mean of a non-empty sequence of positive numbers is a positive number. */
  lemma MeanPositive(s: seq<real>)
    requires |s| > 0 && AllAbove(s, 0.0)
    ensures Gt(Mean(s), 0.0)
  {
    SumPositive(s);
  }
}
