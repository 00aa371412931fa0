/**
 The batch operations the inlet solver builds on: numpy's broadcast of a
 length-1 input to a whole batch, and the boolean-mask assignment
 `a[mask] = v[mask]` that fills each regime's points of a pre-allocated array.
 */
module Batch {

  /** An input numpy can use for a batch of n points: one value, or one per point. */
  predicate Broadcastable(s: seq<real>, n: nat)
  {
    |s| == 1 || |s| == n
  }

  /** A length-1 input replaced by n copies of its one value
      (`np.asscalar(x) * np.ones_like(M0)`); any other input is kept as it is. */
  function Broadcast(s: seq<real>, n: nat): (r: seq<real>)
    requires Broadcastable(s, n)
    ensures |r| == n
    ensures forall i :: 0 <= i < n ==> r[i] == s[if |s| == 1 then 0 else i]
    ensures |s| == n ==> r == s
  {
    if |s| == 1 then seq(n, i => s[0]) else s
  }

  /** The value of `s` after `s[mask] = v[mask]`. */
  function Select(mask: seq<bool>, v: seq<real>, s: seq<real>): (r: seq<real>)
    requires |mask| == |v| == |s|
    ensures |r| == |s|
  {
    seq(|s|, i requires 0 <= i < |s| => if mask[i] then v[i] else s[i])
  }

  /** No point is selected by both masks. */
  predicate Disjoint(m1: seq<bool>, m2: seq<bool>)
    requires |m1| == |m2|
  {
    forall i :: 0 <= i < |m1| ==> !(m1[i] && m2[i])
  }

  /** Every point is selected by one of the three masks. */
  predicate Covers(m1: seq<bool>, m2: seq<bool>, m3: seq<bool>)
    requires |m1| == |m2| == |m3|
  {
    forall i :: 0 <= i < |m1| ==> m1[i] || m2[i] || m3[i]
  }

  /** A masked write changes exactly the selected entries: they take the new
      value, and every other entry keeps the old one.
      A stand-alone statement of what `Select` means; the fill proofs do not
      use it. */
  lemma SelectChangesOnlyMasked(mask: seq<bool>, v: seq<real>, s: seq<real>, i: nat)
    requires |mask| == |v| == |s| && i < |s|
    ensures mask[i] ==> Select(mask, v, s)[i] == v[i]
    ensures !mask[i] ==> Select(mask, v, s)[i] == s[i]
  {
  }

  /** Masked writes through disjoint masks can be done in either order.
      A stand-alone statement of what `Select` means; the fill proofs do not
      use it. */
  lemma SelectCommutes(m1: seq<bool>, v1: seq<real>, m2: seq<bool>, v2: seq<real>, s: seq<real>)
    requires |m1| == |v1| == |m2| == |v2| == |s|
    requires Disjoint(m1, m2)
    ensures Select(m1, v1, Select(m2, v2, s)) == Select(m2, v2, Select(m1, v1, s))
  {
    var a := Select(m1, v1, Select(m2, v2, s));
    var b := Select(m2, v2, Select(m1, v1, s));
    forall i | 0 <= i < |s| ensures a[i] == b[i] {
      assert !(m1[i] && m2[i]);
    }
  }

  /** Once three masks that cover the batch have each written their points,
      nothing of the initial contents survives: the result is the same from any
      initial array.
      A stand-alone statement of what `Select` means; the fill proofs do not
      use it. */
  lemma SelectCoveredForgetsInitial(
    m1: seq<bool>, v1: seq<real>, m2: seq<bool>, v2: seq<real>, m3: seq<bool>, v3: seq<real>,
    s: seq<real>, t: seq<real>)
    requires |m1| == |v1| == |m2| == |v2| == |m3| == |v3| == |s| == |t|
    requires Covers(m1, m2, m3)
    ensures Select(m3, v3, Select(m2, v2, Select(m1, v1, s)))
         == Select(m3, v3, Select(m2, v2, Select(m1, v1, t)))
  {
    var a := Select(m3, v3, Select(m2, v2, Select(m1, v1, s)));
    var b := Select(m3, v3, Select(m2, v2, Select(m1, v1, t)));
    forall i | 0 <= i < |s| ensures a[i] == b[i] {
      assert m1[i] || m2[i] || m3[i];
    }
  }

  /** `a[mask] = v[mask]`, in place. */
  method MaskedAssign(a: array<real>, mask: seq<bool>, v: seq<real>)
    requires a.Length == |mask| == |v|
    modifies a
    ensures a[..] == Select(mask, v, old(a[..]))
  {
    var i := 0;
    while i < a.Length
      invariant 0 <= i <= a.Length
      invariant forall k :: 0 <= k < i ==> a[k] == if mask[k] then v[k] else old(a[k])
      invariant forall k :: i <= k < a.Length ==> a[k] == old(a[k])
    {
      if mask[i] {
        a[i] := v[i];
      }
      i := i + 1;
    }
  }
}
