/**
 * The voxel-wise image filters of the calibration code, each with the per-voxel
 * meaning the code configures its VTK filter to have.  An image is the sequence
 * of its voxel values; images on the same extent are sequences of equal length,
 * aligned voxel for voxel.  Scalar types (float, short, unsigned char) are not
 * modelled: every voxel is an exact `real`.
 */
module Voxels {
  import opened Sums
  import opened Outcomes

  /** The Kaneko et al. CHA-to-ash relation used by bmd_CHAToAsh. */
  const ChaAshSlope: real := 0.839
  const ChaAshIntercept: real := 69.8

  /** The Keyak et al. K2HPO4-to-ash relation used by bmd_K2hpo4ToAsh. */
  const K2hpo4AshSlope: real := 1.06
  const K2hpo4AshIntercept: real := 38.9

  /** bmd_CHAToAsh: MultiplyByK(0.839) then AddConstant(69.8). */
  function ChaToAsh(img: seq<real>): seq<real>
  {
    Affine(img, ChaAshSlope, ChaAshIntercept)
  }

  /** bmd_K2hpo4ToAsh: MultiplyByK(1.06) then AddConstant(38.9). */
  function K2hpo4ToAsh(img: seq<real>): seq<real>
  {
    Affine(img, K2hpo4AshSlope, K2hpo4AshIntercept)
  }

  /**
   * vtkImageThreshold with ThresholdByLower(t), ReplaceIn to t and ReplaceOut
   * off: voxels at or below t become t, the others pass through.
   */
  function LowerThreshold(img: seq<real>, t: real): (r: seq<real>)
    ensures |r| == |img|
    ensures forall i :: 0 <= i < |img| ==> r[i] >= t
    ensures forall i :: 0 <= i < |img| ==> (r[i] == img[i] <==> img[i] >= t)
  {
    seq(|img|, i requires 0 <= i < |img| => if img[i] <= t then t else img[i])
  }

  /**
   * maskThreshold: vtkImageThreshold with ThresholdBetween(rodLabel, rodLabel),
   * ReplaceIn to 1 and ReplaceOut to 0.
   */
  function MaskThreshold(mask: seq<real>, rodLabel: real): (r: seq<real>)
    ensures |r| == |mask|
    ensures forall i :: 0 <= i < |mask| ==> (r[i] == 1.0 <==> mask[i] == rodLabel)
    ensures forall i :: 0 <= i < |mask| ==> (r[i] == 0.0 <==> mask[i] != rodLabel)
  {
    seq(|mask|, i requires 0 <= i < |mask| => if rodLabel <= mask[i] <= rodLabel then 1.0 else 0.0)
  }

  /**
   * applyMask: vtkImageMask with masked output value 0 and NotMask off keeps the
   * image where the mask is non-zero and writes 0 elsewhere.
   */
  function ApplyMask(img: seq<real>, mask: seq<real>): (r: seq<real>)
    requires |img| == |mask|
    ensures |r| == |img|
    ensures forall i :: 0 <= i < |img| ==> (r[i] != 0.0 <==> img[i] != 0.0 && mask[i] != 0.0)
    ensures forall i :: 0 <= i < |img| ==> r[i] == 0.0 || r[i] == img[i]
  {
    seq(|img|, i requires 0 <= i < |img| => if mask[i] != 0.0 then img[i] else 0.0)
  }

  /** The non-zero voxels, in order. */
  function NonZero(s: seq<real>): seq<real>
  {
    if |s| == 0 then []
    else if s[0] != 0.0 then [s[0]] + NonZero(s[1..])
    else NonZero(s[1..])
  }

  /** Number of non-zero voxels (numpy's count_nonzero). */
  function CountNonZero(s: seq<real>): nat
  {
    |NonZero(s)|
  }

  /**
   * imageHistogramMean: vtkImageAccumulate with IgnoreZero on averages the
   * non-zero voxels.  An image without a non-zero voxel has no mean.
   */
  function HistogramMean(img: seq<real>): (r: Option<real>)
    ensures r.None? <==> forall i :: 0 <= i < |img| ==> img[i] == 0.0
    ensures r.Some? ==> r.value * (CountNonZero(img) as real) == Sum(img)
  {
    NonZeroNone(img);
    SumNonZero(img);
    var nz := NonZero(img);
    if |nz| == 0 then None else Some(Mean(nz))
  }

  /** The voxels of the rod with the given rodLabel: mask equal to the rodLabel, image non-zero. */
  function RodValues(img: seq<real>, mask: seq<real>, rodLabel: real): seq<real>
    requires |img| == |mask|
  {
    if |img| == 0 then []
    else if mask[0] == rodLabel && img[0] != 0.0 then [img[0]] + RodValues(img[1..], mask[1..], rodLabel)
    else RodValues(img[1..], mask[1..], rodLabel)
  }

  /**
   * A rod's mean HU as the driver computes it: maskThreshold, then applyMask,
   * then imageHistogramMean.
   */
  function RodMean(img: seq<real>, mask: seq<real>, rodLabel: real): (r: Option<real>)
    requires |img| == |mask|
    ensures r.Some? <==> |RodValues(img, mask, rodLabel)| > 0
    ensures r.Some? ==> r.value == Mean(RodValues(img, mask, rodLabel))
  {
    RodExtraction(img, mask, rodLabel);
    HistogramMean(ApplyMask(img, MaskThreshold(mask, rodLabel)))
  }

  /** Voxel spacing in mm along the three axes. */
  datatype Spacing = Spacing(x: real, y: real, z: real)

  function VoxelVolume(sp: Spacing): real
  {
    sp.x * sp.y * sp.z
  }

  /** The dictionary bmd_metrics returns. */
  datatype BoneMetrics = BoneMetrics(integralBmd: real, integralBmc: real, volumeMm: real, volumeCm: real)

  /**
   * bmd_metrics: the mean density over the non-zero voxels, the volume they
   * occupy in mm^3 and cm^3, and the mineral content mean*volume.  Without a
   * non-zero voxel numpy divides 0 by 0; here that is EmptyRegion.
   */
  function BmdMetrics(img: seq<real>, sp: Spacing): (r: Result<BoneMetrics>)
    ensures r.Ok? <==> exists i :: 0 <= i < |img| && img[i] != 0.0
    ensures r.Ok? ==> r.value.integralBmd * (CountNonZero(img) as real) == Sum(img)
    ensures r.Ok? ==> r.value.volumeMm == (CountNonZero(img) as real) * VoxelVolume(sp)
    ensures r.Ok? ==> r.value.volumeCm * 1000.0 == r.value.volumeMm
    ensures r.Ok? ==> r.value.integralBmc * 1000.0 == Sum(img) * VoxelVolume(sp)
  {
    NonZeroNone(img);
    SumNonZero(img);
    var count := CountNonZero(img) as real;
    var vv := VoxelVolume(sp);
    if count == 0.0 then Err(EmptyRegion)
    else
      var avg := Sum(img) / count;
      MeanTimesVolume(Sum(img), count, vv);
      Ok(BoneMetrics(avg, avg * (count * (vv / 1000.0)), count * vv, count * (vv / 1000.0)))
  }

  // ---------------------------------------------------------------------------
  // Lemmas

  /** Zero voxels contribute nothing to the sum. */
  lemma {:induction false} SumNonZero(s: seq<real>)
    ensures Sum(NonZero(s)) == Sum(s)
  {
    if |s| > 0 {
      SumNonZero(s[1..]);
    }
  }

  /** No non-zero voxel is left exactly when all voxels are zero. */
  lemma {:induction false} NonZeroNone(s: seq<real>)
    ensures |NonZero(s)| == 0 <==> forall i :: 0 <= i < |s| ==> s[i] == 0.0
  {
    if |s| > 0 {
      NonZeroNone(s[1..]);
      if s[0] == 0.0 && |NonZero(s)| == 0 {
        forall i | 0 <= i < |s| ensures s[i] == 0.0 {
          if i > 0 { assert s[i] == s[1..][i - 1]; }
        }
      }
    }
  }

  /** Every retained voxel is non-zero, and so the mean of the retained voxels ignores zeros. */
  lemma {:induction false} NonZeroAllNonZero(s: seq<real>)
    ensures forall i :: 0 <= i < |NonZero(s)| ==> NonZero(s)[i] != 0.0
  {
    if |s| > 0 {
      NonZeroAllNonZero(s[1..]);
    }
  }

  /** The mask-threshold-mask-histogram chain retains exactly the rod's non-zero voxels. */
  lemma {:induction false} RodExtraction(img: seq<real>, mask: seq<real>, rodLabel: real)
    requires |img| == |mask|
    ensures NonZero(ApplyMask(img, MaskThreshold(mask, rodLabel))) == RodValues(img, mask, rodLabel)
  {
    if |img| > 0 {
      var m := ApplyMask(img, MaskThreshold(mask, rodLabel));
      assert m[1..] == ApplyMask(img[1..], MaskThreshold(mask[1..], rodLabel));
      RodExtraction(img[1..], mask[1..], rodLabel);
    }
  }

  /** The mean times the count is the total, and the volume in cm^3 is a thousandth of that in mm^3. */
  lemma MeanTimesVolume(total: real, n: real, w: real)
    requires n != 0.0
    ensures (total / n) * n == total
    ensures (n * (w / 1000.0)) * 1000.0 == n * w
    ensures (total / n) * (n * (w / 1000.0)) * 1000.0 == total * w
  {
    var q := total / n;
    assert q * n == total;
    assert q * (n * (w / 1000.0)) == (q * n) * (w / 1000.0);
  }

  /** The affine voxel maps act on each voxel alone: mapping a concatenation maps each part. */
  lemma {:induction false} AffineVoxelwise(a: seq<real>, b: seq<real>, k: real, c: real)
    ensures Affine(a + b, k, c) == Affine(a, k, c) + Affine(b, k, c)
  {
    forall i | 0 <= i < |a + b| ensures Affine(a + b, k, c)[i] == (Affine(a, k, c) + Affine(b, k, c))[i] {
      if i >= |a| {
        assert (a + b)[i] == b[i - |a|];
      }
    }
  }

  /** A constant image stays constant under an affine voxel map. */
  lemma {:induction false} AffineConstant(img: seq<real>, v: real, k: real, c: real)
    requires forall i :: 0 <= i < |img| ==> img[i] == v
    ensures forall i :: 0 <= i < |img| ==> Affine(img, k, c)[i] == k * v + c
  {
  }

  /** An affine voxel map with a non-zero factor is undone by the inverse map. */
  lemma {:induction false} AffineInverse(img: seq<real>, k: real, c: real)
    requires k != 0.0
    ensures Affine(Affine(img, k, c), 1.0 / k, -c / k) == img
  {
    forall i | 0 <= i < |img| ensures Affine(Affine(img, k, c), 1.0 / k, -c / k)[i] == img[i] {
      InverseAt(img[i], k, c);
    }
  }

  lemma InverseAt(v: real, k: real, c: real)
    requires k != 0.0
    ensures (1.0 / k) * (k * v + c) + -c / k == v
  {
    assert (1.0 / k) * (k * v) == v;
    assert (1.0 / k) * c == c / k;
  }

  /** A non-negative factor keeps the voxel order. */
  lemma {:induction false} AffineMonotone(u: seq<real>, v: seq<real>, k: real, c: real)
    requires |u| == |v| && k >= 0.0
    requires forall i :: 0 <= i < |u| ==> u[i] <= v[i]
    ensures forall i :: 0 <= i < |u| ==> Affine(u, k, c)[i] <= Affine(v, k, c)[i]
  {
    forall i | 0 <= i < |u| ensures Affine(u, k, c)[i] <= Affine(v, k, c)[i] {
      ScaleMonotone(u[i], v[i], k);
    }
  }

  /** Both ash conversions keep the density order and can be inverted. */
  lemma {:induction false} AshConversions(u: seq<real>, v: seq<real>)
    requires |u| == |v|
    requires forall i :: 0 <= i < |u| ==> u[i] <= v[i]
    ensures forall i :: 0 <= i < |u| ==> ChaToAsh(u)[i] <= ChaToAsh(v)[i]
    ensures forall i :: 0 <= i < |u| ==> K2hpo4ToAsh(u)[i] <= K2hpo4ToAsh(v)[i]
    ensures Affine(ChaToAsh(u), 1.0 / ChaAshSlope, -ChaAshIntercept / ChaAshSlope) == u
    ensures Affine(K2hpo4ToAsh(u), 1.0 / K2hpo4AshSlope, -K2hpo4AshIntercept / K2hpo4AshSlope) == u
  {
    AffineMonotone(u, v, ChaAshSlope, ChaAshIntercept);
    AffineMonotone(u, v, K2hpo4AshSlope, K2hpo4AshIntercept);
    AffineInverse(u, ChaAshSlope, ChaAshIntercept);
    AffineInverse(u, K2hpo4AshSlope, K2hpo4AshIntercept);
  }

  /** Thresholding twice at the same level changes nothing more. */
  lemma {:induction false} LowerThresholdIdempotent(img: seq<real>, t: real)
    ensures LowerThreshold(LowerThreshold(img, t), t) == LowerThreshold(img, t)
  {
  }

  /** An image is left unchanged exactly when no voxel lies below the threshold. */
  lemma {:induction false} LowerThresholdIdentity(img: seq<real>, t: real)
    ensures LowerThreshold(img, t) == img <==> forall i :: 0 <= i < |img| ==> img[i] >= t
  {
    if LowerThreshold(img, t) == img {
      forall i | 0 <= i < |img| ensures img[i] >= t {
        assert LowerThreshold(img, t)[i] == img[i];
      }
    }
  }

  /** The lower threshold is the voxel-wise maximum with t. */
  lemma {:induction false} LowerThresholdIsMax(img: seq<real>, t: real)
    ensures forall i :: 0 <= i < |img| ==>
      LowerThreshold(img, t)[i] >= img[i] &&
      (LowerThreshold(img, t)[i] == img[i] || LowerThreshold(img, t)[i] == t)
  {
  }

  /** The voxel count and the mean of bmd_metrics agree with imageHistogramMean. */
  lemma {:induction false} BmdMeanIsHistogramMean(img: seq<real>, sp: Spacing)
    requires BmdMetrics(img, sp).Ok?
    ensures HistogramMean(img) == Some(BmdMetrics(img, sp).value.integralBmd)
  {
    SumNonZero(img);
  }
}
