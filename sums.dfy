/**
 * Finite sums over voxel and sample sequences, and the linearity facts the
 * regression and the voxel statistics are proved from.  Every quantity is an
 * exact `real`; floating-point rounding is outside the model.
 */
module Sums {

  /** Sum of the elements of `s` (numpy's `sum`). */
  function Sum(s: seq<real>): real
  {
    if |s| == 0 then 0.0 else s[0] + Sum(s[1..])
  }

  /** Sum of the pairwise products of two aligned sequences. */
  function Dot(u: seq<real>, v: seq<real>): real
    requires |u| == |v|
  {
    if |u| == 0 then 0.0 else u[0] * v[0] + Dot(u[1..], v[1..])
  }

  /** The voxel-wise affine map v |-> k*v + c. */
  function Affine(s: seq<real>, k: real, c: real): seq<real>
  {
    seq(|s|, i requires 0 <= i < |s| => k * s[i] + c)
  }

  /** Element-wise difference of two aligned sequences. */
  function Sub(u: seq<real>, v: seq<real>): seq<real>
    requires |u| == |v|
  {
    seq(|u|, i requires 0 <= i < |u| => u[i] - v[i])
  }

  /** Arithmetic mean. */
  function Mean(s: seq<real>): real
    requires |s| > 0
  {
    Sum(s) / (|s| as real)
  }

  /** True when every element equals the first one (also for fewer than two elements). */
  predicate AllIdentical(s: seq<real>)
  {
    forall i :: 0 <= i < |s| ==> s[i] == s[0]
  }

  lemma {:induction false} SumAffine(s: seq<real>, k: real, c: real)
    ensures Sum(Affine(s, k, c)) == k * Sum(s) + (|s| as real) * c
  {
    if |s| > 0 {
      assert Affine(s, k, c)[1..] == Affine(s[1..], k, c);
      SumAffine(s[1..], k, c);
    }
  }

  lemma {:induction false} SumSub(u: seq<real>, v: seq<real>)
    requires |u| == |v|
    ensures Sum(Sub(u, v)) == Sum(u) - Sum(v)
  {
    if |u| > 0 {
      assert Sub(u, v)[1..] == Sub(u[1..], v[1..]);
      SumSub(u[1..], v[1..]);
    }
  }

  lemma {:induction false} SumConstant(s: seq<real>, c: real)
    requires forall i :: 0 <= i < |s| ==> s[i] == c
    ensures Sum(s) == (|s| as real) * c
  {
    if |s| > 0 {
      SumConstant(s[1..], c);
    }
  }

  lemma {:induction false} DotSymmetric(u: seq<real>, v: seq<real>)
    requires |u| == |v|
    ensures Dot(u, v) == Dot(v, u)
  {
    if |u| > 0 {
      DotSymmetric(u[1..], v[1..]);
    }
  }

  lemma {:induction false} DotSubRight(w: seq<real>, u: seq<real>, v: seq<real>)
    requires |w| == |u| == |v|
    ensures Dot(w, Sub(u, v)) == Dot(w, u) - Dot(w, v)
  {
    if |w| > 0 {
      assert Sub(u, v)[1..] == Sub(u[1..], v[1..]);
      DotSubRight(w[1..], u[1..], v[1..]);
      assert w[0] * (u[0] - v[0]) == w[0] * u[0] - w[0] * v[0];
    }
  }

  /** The tail of an affine image is the affine image of the tail. */
  lemma {:induction false} AffineTail(u: seq<real>, k: real, c: real)
    requires |u| > 0
    ensures Affine(u, k, c)[1..] == Affine(u[1..], k, c)
  {
    forall j | 0 <= j < |u| - 1 ensures Affine(u, k, c)[1..][j] == Affine(u[1..], k, c)[j] {
      assert u[1..][j] == u[j + 1];
    }
  }

  lemma {:induction false} DotAffineRight(w: seq<real>, u: seq<real>, k: real, c: real)
    requires |w| == |u|
    ensures Dot(w, Affine(u, k, c)) == k * Dot(w, u) + c * Sum(w)
  {
    if |w| > 0 {
      AffineTail(u, k, c);
      DotAffineRight(w[1..], u[1..], k, c);
      assert w[0] * (k * u[0] + c) == k * (w[0] * u[0]) + c * w[0];
    }
  }

  /** Scaling one side scales the product, whichever order the factors are written in. */
  lemma {:induction false} DotScaledSwap(w: seq<real>, u: seq<real>, k: real)
    requires |w| == |u|
    ensures Dot(w, Affine(u, k, 0.0)) == k * Dot(u, w)
  {
    if |w| > 0 {
      AffineTail(u, k, 0.0);
      DotScaledSwap(w[1..], u[1..], k);
      assert w[0] * (k * u[0] + 0.0) == k * (u[0] * w[0]);
    }
  }

  /** Scaling both sides by k scales the product by k twice. */
  lemma {:induction false} DotScaledSelf(u: seq<real>, k: real)
    ensures Dot(Affine(u, k, 0.0), Affine(u, k, 0.0)) == k * (k * Dot(u, u))
  {
    if |u| > 0 {
      AffineTail(u, k, 0.0);
      DotScaledSelf(u[1..], k);
      assert (k * u[0] + 0.0) * (k * u[0] + 0.0) == k * (k * (u[0] * u[0]));
    }
  }

  lemma {:induction false} DotSelfNonNegative(u: seq<real>)
    ensures Dot(u, u) >= 0.0
  {
    if |u| > 0 {
      DotSelfNonNegative(u[1..]);
      assert u[0] * u[0] >= 0.0;
    }
  }

  /** Scaling by a non-negative factor keeps order. */
  lemma ScaleMonotone(a: real, b: real, k: real)
    requires a <= b && k >= 0.0
    ensures k * a <= k * b
  {
    assert k * b - k * a == k * (b - a);
  }

  /** Equal factors give equal products. */
  lemma MulEqual(k: real, a: real, b: real)
    requires a == b
    ensures k * a == k * b
  {
  }

  /** Multiplying a product by the reciprocal of a non-zero factor gives the other factor back. */
  lemma CancelFactor(c: real, d: real)
    requires d != 0.0
    ensures (c * d) * (1.0 / d) == c
  {
  }

  /** A product with a non-zero factor vanishes only when the other factor does. */
  lemma ProductZero(c: real, d: real)
    requires c * d == 0.0 && d != 0.0
    ensures c == 0.0
  {
    CancelFactor(c, d);
  }

  /** Only zero squares to zero. */
  lemma SquareZero(x: real)
    requires x * x == 0.0
    ensures x == 0.0
  {
    if x != 0.0 {
      ProductZero(x, x);
      assert false;
    }
  }

  /** A sum of squares vanishes only when every term does. */
  lemma {:induction false} DotSelfZero(u: seq<real>)
    requires Dot(u, u) <= 0.0
    ensures forall i :: 0 <= i < |u| ==> u[i] == 0.0
  {
    if |u| > 0 {
      DotSelfNonNegative(u[1..]);
      assert u[0] * u[0] >= 0.0;
      assert u[0] * u[0] == 0.0;
      SquareZero(u[0]);
      DotSelfZero(u[1..]);
      forall i | 0 <= i < |u| ensures u[i] == 0.0 {
        if i > 0 { assert u[i] == u[1..][i - 1]; }
      }
    }
  }

  /** A sum of squares of zeros is zero. */
  lemma {:induction false} DotSelfZeroIfAllZero(u: seq<real>)
    requires forall i :: 0 <= i < |u| ==> u[i] == 0.0
    ensures Dot(u, u) == 0.0
  {
    if |u| > 0 {
      DotSelfZeroIfAllZero(u[1..]);
    }
  }

  /** Expansion of a squared difference: |u - v|^2 = |u|^2 - 2 u.v + |v|^2. */
  lemma {:induction false} SubSquared(u: seq<real>, v: seq<real>)
    requires |u| == |v|
    ensures Dot(Sub(u, v), Sub(u, v)) == Dot(u, u) - 2.0 * Dot(u, v) + Dot(v, v)
  {
    var d := Sub(u, v);
    DotSubRight(d, u, v);
    DotSymmetric(d, u);
    DotSymmetric(d, v);
    DotSubRight(u, u, v);
    DotSubRight(v, u, v);
    DotSymmetric(u, v);
  }
}
