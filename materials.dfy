/**
 * materialTable of ogo_helper.py: the finite-element material table with one
 * PMMA material and one bone material array whose Young's modulus follows a
 * density power law, one entry per density bin of 1 mg/cc.
 */
module Materials {
  import opened Sums
  import opened Outcomes

  /** Width of a density bin in g/cc. */
  const DensityBinStep: real := 0.001

  /** The two kinds of material the table holds. */
  datatype Material =
    | LinearIsotropic(name: string, youngsModulus: real, poissonsRatio: real)
    | LinearIsotropicArray(name: string, youngsModuli: seq<real>, poissonsRatios: seq<real>)

  /** Largest element of a non-empty sequence. */
  function MaxOf(s: seq<int>): (m: int)
    requires |s| > 0
    ensures m in s
    ensures forall i :: 0 <= i < |s| ==> s[i] <= m
  {
    if |s| == 1 then s[0]
    else
      var rest := MaxOf(s[1..]);
      assert forall i :: 1 <= i < |s| ==> s[i] == s[1..][i - 1];
      if s[0] >= rest then s[0] else rest
  }

  /**
   * The bone moduli materialTable writes: numpy's arange(1, maxId+2) gives
   * bin i the placeholder i+1, and the loop overwrites bins 1..maxId with
   * Emax*pow(i*0.001, exponent), leaving only bin 0 at its placeholder 1.
   */
  function BoneModuli(maxId: int, emax: real, exponent: real, pow: (real, real) -> real): (r: seq<real>)
    requires maxId >= -1
    ensures |r| == maxId + 1
    ensures |r| > 0 ==> r[0] == 1.0
    ensures forall i :: 1 <= i < |r| ==> r[i] == emax * pow(i as real * DensityBinStep, exponent)
  {
    seq(maxId + 1, i requires 0 <= i < maxId + 1 =>
      if i == 0 then 1.0 else emax * pow(i as real * DensityBinStep, exponent))
  }

  /** The result of materialTable: the materials by id, and the two bone arrays. */
  datatype MaterialTable = MaterialTable(materials: map<int, Material>, boneModuli: seq<real>, bonePoissons: seq<real>)

  /**
   * materialTable.  The largest cell id of the mesh (an empty mesh makes max
   * raise ValueError: EmptyInput; an id below -1 makes numpy's ones raise on a
   * negative size: NegativeSize) sizes the bone arrays; math.pow is the
   * parameter `pow`.  The bone array is added under id 1 after PMMA, so it
   * replaces PMMA when both ids are 1.
   */
  method BuildMaterialTable(cellIds: seq<int>, poissonsRatio: real, emax: real, exponent: real,
                            pmmaId: int, pmmaE: real, pmmaNu: real, pow: (real, real) -> real)
    returns (r: Result<MaterialTable>)
    ensures r.Ok? <==> |cellIds| > 0 && MaxOf(cellIds) >= -1
    ensures r.Ok? ==> var maxId := MaxOf(cellIds);
      r.value.boneModuli == BoneModuli(maxId, emax, exponent, pow) &&
      |r.value.bonePoissons| == maxId + 1 &&
      (forall i :: 0 <= i < |r.value.bonePoissons| ==> r.value.bonePoissons[i] == poissonsRatio) &&
      r.value.materials == map[pmmaId := LinearIsotropic("PMMA", pmmaE, pmmaNu)]
        [1 := LinearIsotropicArray("Bone", r.value.boneModuli, r.value.bonePoissons)]
  {
    if |cellIds| == 0 {
      return Err(EmptyInput);
    }
    var maxId := MaxOf(cellIds);
    if maxId < -1 {
      return Err(NegativeSize);
    }
    var materials := map[pmmaId := LinearIsotropic("PMMA", pmmaE, pmmaNu)];
    var boneE := new real[maxId + 1](i => i as real + 1.0);
    var boneNu := new real[maxId + 1](i => poissonsRatio);
    var i := 1;
    while i <= maxId
      invariant 1 <= i && (maxId >= 1 ==> i <= maxId + 1)
      invariant boneE.Length > 0 ==> boneE[0] == 1.0
      invariant forall j :: 1 <= j < i && j < boneE.Length ==>
        boneE[j] == emax * pow(j as real * DensityBinStep, exponent)
      modifies boneE
    {
      var den := i as real * DensityBinStep;
      var modulus := emax * pow(den, exponent);
      boneE[i] := modulus;
      i := i + 1;
    }
    assert boneE[..] == BoneModuli(maxId, emax, exponent, pow);
    var bone := LinearIsotropicArray("Bone", boneE[..], boneNu[..]);
    materials := materials[1 := bone];
    return Ok(MaterialTable(materials, boneE[..], boneNu[..]));
  }

  /**
   * A power law increasing in density gives moduli increasing with the bin,
   * from bin 1 on.
   */
  lemma BoneModuliIncreasing(maxId: int, emax: real, exponent: real, pow: (real, real) -> real, i: int, j: int)
    requires maxId >= -1 && emax >= 0.0
    requires forall a: real, b: real :: 0.0 < a <= b ==> pow(a, exponent) <= pow(b, exponent)
    requires 1 <= i <= j <= maxId
    ensures BoneModuli(maxId, emax, exponent, pow)[i] <= BoneModuli(maxId, emax, exponent, pow)[j]
  {
    assert 0.0 < i as real * DensityBinStep <= j as real * DensityBinStep;
    assert pow(i as real * DensityBinStep, exponent) <= pow(j as real * DensityBinStep, exponent);
    ScaleMonotone(pow(i as real * DensityBinStep, exponent), pow(j as real * DensityBinStep, exponent), emax);
  }
}
