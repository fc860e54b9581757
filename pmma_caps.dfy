/**
 * The PMMA caps of ogo_helper.py (femoralHeadPMMA, femoralHeadPMMA_SLS,
 * greaterTrochanterPMMA, inferiorVertebralPMMA, superiorVertebralPMMA) and the
 * way combineImageData_SF, _SLS and _VC merge them into the bone image.
 *
 * A cap is a box of voxels filled with `inval`, grown by `thickness` voxels on
 * one face with the PMMA material id.  The box's integer extent is taken as
 * int(bound / spacing) of the model's bounds, truncated toward zero.
 */
module PmmaCaps {
  import opened Outcomes
  import opened Voxels

  /** A VTK extent: inclusive voxel index ranges along x, y and z. */
  datatype Extent = Extent(x0: int, x1: int, y0: int, y1: int, z0: int, z1: int)

  /** A voxel index triple. */
  datatype Point = Point(i: int, j: int, k: int)

  predicate Contains(e: Extent, p: Point)
  {
    e.x0 <= p.i <= e.x1 && e.y0 <= p.j <= e.y1 && e.z0 <= p.k <= e.z1
  }

  /** Python's int() on a float: truncation toward zero. */
  function TruncateToInt(x: real): (r: int)
    ensures x >= 0.0 ==> r as real <= x < r as real + 1.0
    ensures x < 0.0 ==> r as real - 1.0 < x <= r as real
  {
    if x >= 0.0 then x.Floor else -((-x).Floor)
  }

  /**
   * The extent of a cap's box: each bound divided by the spacing along its
   * axis and truncated.  A zero spacing raises ZeroDivisionError.
   */
  function BoxExtent(xMin: real, xMax: real, yMin: real, yMax: real, zMin: real, zMax: real,
                     sx: real, sy: real, sz: real): (r: Result<Extent>)
    ensures r.Err? <==> sx == 0.0 || sy == 0.0 || sz == 0.0
    ensures r.Ok? ==> r.value.x0 == TruncateToInt(xMin / sx) && r.value.x1 == TruncateToInt(xMax / sx)
    ensures r.Ok? ==> r.value.y0 == TruncateToInt(yMin / sy) && r.value.y1 == TruncateToInt(yMax / sy)
    ensures r.Ok? ==> r.value.z0 == TruncateToInt(zMin / sz) && r.value.z1 == TruncateToInt(zMax / sz)
  {
    if sx == 0.0 || sy == 0.0 || sz == 0.0 then Err(ZeroDenominator)
    else Ok(Extent(TruncateToInt(xMin / sx), TruncateToInt(xMax / sx),
                   TruncateToInt(yMin / sy), TruncateToInt(yMax / sy),
                   TruncateToInt(zMin / sz), TruncateToInt(zMax / sz)))
  }

  /** Number of voxels along each axis; an extent with a negative count along an axis is empty. */
  function Width(e: Extent): int { e.x1 - e.x0 + 1 }
  function Height(e: Extent): int { e.y1 - e.y0 + 1 }
  function Depth(e: Extent): int { e.z1 - e.z0 + 1 }

  predicate NonEmpty(e: Extent)
  {
    Width(e) > 0 && Height(e) > 0 && Depth(e) > 0
  }

  function VoxelCount(e: Extent): int
  {
    Width(e) * Height(e) * Depth(e)
  }

  /** The five caps, named after the function that builds each. */
  datatype Cap =
    | FemoralHead          // femoralHeadPMMA: grows the lower y face
    | FemoralHeadSls       // femoralHeadPMMA_SLS: grows the upper z face
    | GreaterTrochanter    // greaterTrochanterPMMA: grows the upper y face
    | InferiorVertebral    // inferiorVertebralPMMA: grows the lower z face
    | SuperiorVertebral    // superiorVertebralPMMA: grows the upper z face

  /** The output whole extent each cap function gives vtkImageConstantPad. */
  function PaddedExtent(cap: Cap, e: Extent, thickness: int): (r: Extent)
    ensures cap == FemoralHead ==> r == e.(y0 := e.y0 - thickness)
    ensures cap == FemoralHeadSls ==> r == e.(z1 := e.z1 + thickness)
    ensures cap == GreaterTrochanter ==> r == e.(y1 := e.y1 + thickness)
    ensures cap == InferiorVertebral ==> r == e.(z0 := e.z0 - thickness)
    ensures cap == SuperiorVertebral ==> r == e.(z1 := e.z1 + thickness)
  {
    match cap
    case FemoralHead => Extent(e.x0, e.x1, e.y0 - thickness, e.y1, e.z0, e.z1)
    case FemoralHeadSls => Extent(e.x0, e.x1, e.y0, e.y1, e.z0, e.z1 + thickness)
    case GreaterTrochanter => Extent(e.x0, e.x1, e.y0, e.y1 + thickness, e.z0, e.z1)
    case InferiorVertebral => Extent(e.x0, e.x1, e.y0, e.y1, e.z0 - thickness, e.z1)
    case SuperiorVertebral => Extent(e.x0, e.x1, e.y0, e.y1, e.z0, e.z1 + thickness)
  }

  /** The area, in voxels, of the face a cap grows. */
  function FaceArea(cap: Cap, e: Extent): int
  {
    match cap
    case FemoralHead => Width(e) * Depth(e)
    case GreaterTrochanter => Width(e) * Depth(e)
    case _ => Width(e) * Height(e)
  }

  /**
   * The cap image resampled onto the bone image's grid by the combine
   * functions' zero padding: inval inside the box, the PMMA id in the grown
   * layer, 0 everywhere else.
   */
  function CapValue(cap: Cap, e: Extent, thickness: int, inval: real, pmmaId: real, p: Point): real
  {
    if !Contains(PaddedExtent(cap, e, thickness), p) then 0.0
    else if Contains(e, p) then inval
    else pmmaId
  }

  /** The voxel at position n of an image's scalars, x fastest, then y, then z. */
  function PointAt(e: Extent, n: int): Point
    requires NonEmpty(e)
  {
    Point(e.x0 + n % Width(e), e.y0 + (n / Width(e)) % Height(e), e.z0 + n / (Width(e) * Height(e)))
  }

  /** The scalars of a cap padded to the bone image's extent `grid`. */
  function CapImage(grid: Extent, cap: Cap, e: Extent, thickness: int, inval: real, pmmaId: real): (r: seq<real>)
    requires NonEmpty(grid)
    ensures |r| == VoxelCount(grid)
    ensures forall n :: 0 <= n < |r| ==> r[n] == CapValue(cap, e, thickness, inval, pmmaId, PointAt(grid, n))
  {
    assert VoxelCount(grid) >= 0 by {
      assert Width(grid) * Height(grid) > 0;
    }
    seq(VoxelCount(grid), n requires 0 <= n < VoxelCount(grid) => CapValue(cap, e, thickness, inval, pmmaId, PointAt(grid, n)))
  }

  /** A position below m*d has quotient by m below d. */
  lemma QuotientBelow(n: int, m: int, d: int)
    requires m > 0 && 0 <= n < m * d
    ensures 0 <= n / m < d
  {
    var q := n / m;
    assert n == m * q + n % m;
  }

  /** Every scalar position of an image names a voxel of its extent. */
  lemma PointAtContained(e: Extent, n: int)
    requires NonEmpty(e) && 0 <= n < VoxelCount(e)
    ensures Contains(e, PointAt(e, n))
  {
    var w, h, d := Width(e), Height(e), Depth(e);
    assert w * h > 0;
    QuotientBelow(n, w * h, d);
    assert 0 <= n / w;
  }

  /** Growing by a non-negative thickness adds thickness layers of the grown face. */
  lemma PaddedVoxelCount(cap: Cap, e: Extent, thickness: int)
    requires NonEmpty(e) && thickness >= 0
    ensures NonEmpty(PaddedExtent(cap, e, thickness))
    ensures VoxelCount(PaddedExtent(cap, e, thickness)) == VoxelCount(e) + thickness * FaceArea(cap, e)
  {
    var r := PaddedExtent(cap, e, thickness);
    var w, h, d := Width(e), Height(e), Depth(e);
    match cap
    case FemoralHead =>
      assert VoxelCount(r) == w * (h + thickness) * d;
      assert w * (h + thickness) * d == w * h * d + thickness * (w * d);
    case GreaterTrochanter =>
      assert VoxelCount(r) == w * (h + thickness) * d;
      assert w * (h + thickness) * d == w * h * d + thickness * (w * d);
    case _ =>
      assert VoxelCount(r) == w * h * (d + thickness);
      assert w * h * (d + thickness) == w * h * d + thickness * (w * h);
  }

  /**
   * With a non-negative thickness the box keeps its fill value, the grown
   * layer holds exactly the points beyond the grown face and no further than
   * thickness voxels from it, and every other point of the grid is 0.
   */
  lemma CapLayout(cap: Cap, e: Extent, thickness: int, inval: real, pmmaId: real, p: Point)
    requires thickness >= 0
    ensures Contains(e, p) ==> CapValue(cap, e, thickness, inval, pmmaId, p) == inval
    ensures !Contains(PaddedExtent(cap, e, thickness), p) ==> CapValue(cap, e, thickness, inval, pmmaId, p) == 0.0
    ensures cap == FemoralHead ==>
      (Contains(PaddedExtent(cap, e, thickness), p) && !Contains(e, p) <==>
        e.x0 <= p.i <= e.x1 && e.z0 <= p.k <= e.z1 && e.y0 - thickness <= p.j < e.y0 && p.j <= e.y1)
    ensures cap == GreaterTrochanter ==>
      (Contains(PaddedExtent(cap, e, thickness), p) && !Contains(e, p) <==>
        e.x0 <= p.i <= e.x1 && e.z0 <= p.k <= e.z1 && e.y1 < p.j <= e.y1 + thickness && e.y0 <= p.j)
    ensures cap == InferiorVertebral ==>
      (Contains(PaddedExtent(cap, e, thickness), p) && !Contains(e, p) <==>
        e.x0 <= p.i <= e.x1 && e.y0 <= p.j <= e.y1 && e.z0 - thickness <= p.k < e.z0 && p.k <= e.z1)
    ensures (cap == FemoralHeadSls || cap == SuperiorVertebral) ==>
      (Contains(PaddedExtent(cap, e, thickness), p) && !Contains(e, p) <==>
        e.x0 <= p.i <= e.x1 && e.y0 <= p.j <= e.y1 && e.z1 < p.k <= e.z1 + thickness && e.z0 <= p.k)
  {
  }

  /**
   * One cap merged into one voxel, as each combine function does it:
   * vtkImageLogic AND of cap and image (true value the PMMA id, false 0),
   * subtracted from the cap, then added to the running image.
   */
  function Overlay(image: real, cap: real, pmmaId: real, acc: real): real
  {
    var logic := if cap != 0.0 && image != 0.0 then pmmaId else 0.0;
    (cap - logic) + acc
  }

  /** combineImageData_SLS: one cap, then negative values set to 0. */
  function CombineSls(image: seq<real>, cap: seq<real>, pmmaId: real): seq<real>
    requires |cap| == |image|
  {
    LowerThreshold(seq(|image|, i requires 0 <= i < |image| => Overlay(image[i], cap[i], pmmaId, image[i])), 0.0)
  }

  /**
   * combineImageData_SF and combineImageData_VC: the first cap onto the
   * image, the second onto that result (each compared with the original
   * image), then negative values set to 0.  combineImageData_SF merges the
   * femoral head cap, then the greater trochanter cap; combineImageData_VC
   * the superior cap, then the inferior cap.
   */
  function CombineTwo(image: seq<real>, first: seq<real>, second: seq<real>, pmmaId: real): seq<real>
    requires |first| == |image| && |second| == |image|
  {
    LowerThreshold(seq(|image|, i requires 0 <= i < |image| =>
      Overlay(image[i], second[i], pmmaId, Overlay(image[i], first[i], pmmaId, image[i]))), 0.0)
  }

  function Positive(v: real): real
  {
    if v <= 0.0 then 0.0 else v
  }

  /**
   * What one cap does to a voxel: outside the cap the voxel is the image
   * clamped at 0; where there is bone the PMMA layer gives way to it; on
   * empty background the cap's value is written.
   */
  lemma {:induction false} CombineSlsVoxel(image: seq<real>, cap: seq<real>, pmmaId: real, i: int)
    requires |cap| == |image| && 0 <= i < |image|
    ensures cap[i] == 0.0 ==> CombineSls(image, cap, pmmaId)[i] == Positive(image[i])
    ensures image[i] != 0.0 && cap[i] == pmmaId ==> CombineSls(image, cap, pmmaId)[i] == Positive(image[i])
    ensures image[i] == 0.0 ==> CombineSls(image, cap, pmmaId)[i] == Positive(cap[i])
  {
  }

  /**
   * What two caps do to a voxel: bone under PMMA layers (or under no cap at
   * all) stays; on empty background the two cap values add up.
   */
  lemma {:induction false} CombineTwoVoxel(image: seq<real>, first: seq<real>, second: seq<real>, pmmaId: real, i: int)
    requires |first| == |image| && |second| == |image| && 0 <= i < |image|
    ensures image[i] != 0.0 && (first[i] == 0.0 || first[i] == pmmaId) && (second[i] == 0.0 || second[i] == pmmaId) ==>
      CombineTwo(image, first, second, pmmaId)[i] == Positive(image[i])
    ensures image[i] == 0.0 ==> CombineTwo(image, first, second, pmmaId)[i] == Positive(first[i] + second[i])
  {
  }

  /** The combined image is never negative. */
  lemma {:induction false} CombineNonNegative(image: seq<real>, first: seq<real>, second: seq<real>, pmmaId: real)
    requires |first| == |image| && |second| == |image|
    ensures forall i :: 0 <= i < |image| ==> CombineTwo(image, first, second, pmmaId)[i] >= 0.0
    ensures forall i :: 0 <= i < |image| ==> CombineSls(image, first, pmmaId)[i] >= 0.0
  {
  }

  /**
   * A cap padded onto the bone image's grid and merged by
   * combineImageData_SLS: outside the padded cap the voxel is the image
   * clamped at 0, and so is bone under the PMMA layer; empty background
   * takes the fill value inside the box and the PMMA id in the layer.
   */
  lemma {:induction false} CombineSlsCap(image: seq<real>, grid: Extent, cap: Cap, e: Extent, thickness: int,
                                         inval: real, pmmaId: real, n: int)
    requires NonEmpty(grid) && thickness >= 0 && |image| == VoxelCount(grid) && 0 <= n < |image|
    ensures !Contains(PaddedExtent(cap, e, thickness), PointAt(grid, n)) ==>
      CombineSls(image, CapImage(grid, cap, e, thickness, inval, pmmaId), pmmaId)[n] == Positive(image[n])
    ensures !Contains(e, PointAt(grid, n)) && image[n] != 0.0 ==>
      CombineSls(image, CapImage(grid, cap, e, thickness, inval, pmmaId), pmmaId)[n] == Positive(image[n])
    ensures Contains(e, PointAt(grid, n)) && image[n] == 0.0 ==>
      CombineSls(image, CapImage(grid, cap, e, thickness, inval, pmmaId), pmmaId)[n] == Positive(inval)
    ensures Contains(PaddedExtent(cap, e, thickness), PointAt(grid, n)) && !Contains(e, PointAt(grid, n)) && image[n] == 0.0 ==>
      CombineSls(image, CapImage(grid, cap, e, thickness, inval, pmmaId), pmmaId)[n] == Positive(pmmaId)
  {
    CapLayout(cap, e, thickness, inval, pmmaId, PointAt(grid, n));
    CombineSlsVoxel(image, CapImage(grid, cap, e, thickness, inval, pmmaId), pmmaId, n);
  }

  /**
   * Two caps padded onto the bone image's grid and merged by
   * combineImageData_SF or _VC: bone outside both boxes stays (clamped at
   * 0), and empty background takes the sum of the two caps' values there.
   */
  lemma {:induction false} CombineTwoCaps(image: seq<real>, grid: Extent, inval: real, pmmaId: real,
                                          cap1: Cap, e1: Extent, t1: int, cap2: Cap, e2: Extent, t2: int, n: int)
    requires NonEmpty(grid) && |image| == VoxelCount(grid) && 0 <= n < |image|
    ensures !Contains(e1, PointAt(grid, n)) && !Contains(e2, PointAt(grid, n)) && image[n] != 0.0 ==>
      CombineTwo(image, CapImage(grid, cap1, e1, t1, inval, pmmaId), CapImage(grid, cap2, e2, t2, inval, pmmaId), pmmaId)[n]
        == Positive(image[n])
    ensures image[n] == 0.0 ==>
      CombineTwo(image, CapImage(grid, cap1, e1, t1, inval, pmmaId), CapImage(grid, cap2, e2, t2, inval, pmmaId), pmmaId)[n]
        == Positive(CapValue(cap1, e1, t1, inval, pmmaId, PointAt(grid, n)) + CapValue(cap2, e2, t2, inval, pmmaId, PointAt(grid, n)))
  {
    CombineTwoVoxel(image, CapImage(grid, cap1, e1, t1, inval, pmmaId), CapImage(grid, cap2, e2, t2, inval, pmmaId), pmmaId, n);
  }
}
