/**
 Polynomial evaluation as `np.polyval` does it: the coefficients run from the
 highest power down, and the value is accumulated by Horner's rule
 (`y = y * x + p[k]` for each coefficient in turn). `PowerSum` is the
 textbook definition the Horner evaluation is proved equal to.
 */
module Polynomial {

  /** x to the k-th power. */
  function Pow(x: real, k: nat): real
  {
    if k == 0 then 1.0 else x * Pow(x, k - 1)
  }

  /** `np.polyval(p, x)`: Horner's rule applied to the coefficients in order. */
  function PolyVal(p: seq<real>, x: real): real
  {
    if |p| == 0 then 0.0 else PolyVal(p[..|p| - 1], x) * x + p[|p| - 1]
  }

  /** The sum of p[k] * x^(|p| - 1 - k) over all coefficients. */
  function PowerSum(p: seq<real>, x: real): real
  {
    if |p| == 0 then 0.0 else p[0] * Pow(x, |p| - 1) + PowerSum(p[1..], x)
  }

  /** Appending a coefficient multiplies the power sum by x and adds it. */
  lemma {:induction false} PowerSumAppend(p: seq<real>, c: real, x: real)
    ensures PowerSum(p + [c], x) == PowerSum(p, x) * x + c
  {
    if |p| == 0 {
      assert p + [c] == [c];
      assert [c][1..] == [];
    } else {
      var q := p + [c];
      assert q[0] == p[0];
      assert q[1..] == p[1..] + [c];
      PowerSumAppend(p[1..], c, x);
      var a, b := Pow(x, |p| - 1), PowerSum(p[1..], x);
      assert Pow(x, |p|) == x * a;
      assert PowerSum(q, x) == p[0] * (x * a) + (b * x + c);
      assert p[0] * (x * a) == (p[0] * a) * x;
    }
  }

  /** Horner evaluation computes the power sum, for every coefficient list. */
  lemma {:induction false} PolyValIsPowerSum(p: seq<real>, x: real)
    ensures PolyVal(p, x) == PowerSum(p, x)
  {
    if |p| > 0 {
      var init, last := p[..|p| - 1], p[|p| - 1];
      PolyValIsPowerSum(init, x);
      PowerSumAppend(init, last, x);
      assert init + [last] == p;
    }
  }

  /** A five-coefficient list is the quartic with those coefficients. */
  lemma Quartic(a: real, b: real, c: real, d: real, e: real, x: real)
    ensures PolyVal([a, b, c, d, e], x) == a * Pow(x, 4) + b * Pow(x, 3) + c * Pow(x, 2) + d * x + e
  {
    var p := [a, b, c, d, e];
    PolyValIsPowerSum(p, x);
    assert p[1..] == [b, c, d, e];
    assert [b, c, d, e][1..] == [c, d, e];
    assert [c, d, e][1..] == [d, e];
    assert [d, e][1..] == [e];
    assert [e][1..] == [];
    assert PowerSum([e], x) == e;
    assert PowerSum([d, e], x) == d * x + e;
    assert PowerSum([c, d, e], x) == c * Pow(x, 2) + d * x + e;
    assert PowerSum([b, c, d, e], x) == b * Pow(x, 3) + c * Pow(x, 2) + d * x + e;
  }

  /** A three-coefficient list is the quadratic with those coefficients. */
  lemma Quadratic(a: real, b: real, c: real, x: real)
    ensures PolyVal([a, b, c], x) == a * x * x + b * x + c
  {
    var p := [a, b, c];
    assert p[..2] == [a, b];
    assert [a, b][..1] == [a];
    assert [a][..0] == [];
    assert PolyVal([a], x) == a;
    assert PolyVal([a, b], x) == a * x + b;
  }
}
