/**
 * Density calibration from a phantom or from internal reference tissues:
 * phantomParameters, phantomParameters_bmas200, applyPhantomParameters,
 * icLinearRegression, icMaterialDensity, icEffectiveEnergy and
 * applyInternalCalibration of ogo_helper.py.
 */
module Calibration {
  import opened Sums
  import opened Outcomes
  import opened Regression
  import opened Voxels
  import opened OrderedDicts

  // ---------------------------------------------------------------------------
  // Phantom calibration

  /** Correction the Mindways Model 3 phantom applies to the regression slope. */
  const SigmaOffset: real := 0.2174
  /** Correction the Mindways Model 3 phantom applies to the regression intercept. */
  const BetaOffset: real := 999.6

  /** The dictionary phantomParameters returns. */
  datatype PhantomCalibration = PhantomCalibration(
    yValues: seq<real>,
    xValues: seq<real>,
    regressionSlope: real,
    regressionIntercept: real,
    sigmaCt: real,
    betaCt: real,
    calibrationSlope: real,
    calibrationYint: real)

  /**
   * phantomParameters: regress y = HU - H2O density on x = K2HPO4 density,
   * shift the slope and intercept into the CT scanner's sigma and beta, and
   * invert the forward model HU = sigma*rho + beta.  numpy would broadcast a
   * length-1 array; here arrays of different lengths are LengthMismatch.  A
   * zero sigma makes numpy divide by zero; here it is DegenerateFit.
   */
  function PhantomParameters(h2o: seq<real>, k2hpo4: seq<real>, hu: seq<real>): (r: Result<PhantomCalibration>)
    ensures r.Ok? <==> (|hu| == |h2o| && Regressable(k2hpo4, Sub(hu, h2o)) &&
      Slope(k2hpo4, Sub(hu, h2o)) != SigmaOffset)
    ensures r.Ok? ==> var p := r.value;
      |p.yValues| == |hu| && (forall i :: 0 <= i < |hu| ==> p.yValues[i] == hu[i] - h2o[i]) &&
      p.xValues == k2hpo4 &&
      p.regressionSlope * Sxx(p.xValues) == Sxy(p.xValues, p.yValues) &&
      p.regressionSlope * Mean(p.xValues) + p.regressionIntercept == Mean(p.yValues) &&
      p.sigmaCt == p.regressionSlope - SigmaOffset &&
      p.betaCt == p.regressionIntercept + BetaOffset &&
      p.calibrationSlope * p.sigmaCt == 1.0 &&
      p.calibrationYint == -p.betaCt * p.calibrationSlope
  {
    if |hu| != |h2o| then Err(LengthMismatch)
    else
      var y := Sub(hu, h2o);
      var fit := LinRegress(k2hpo4, y);
      if fit.Err? then Err(fit.error)
      else
        var sigma := fit.value.slope - SigmaOffset;
        var beta := fit.value.intercept + BetaOffset;
        if sigma == 0.0 then Err(DegenerateFit)
        else
          ReciprocalQuotient(beta, sigma);
          Ok(PhantomCalibration(y, k2hpo4, fit.value.slope, fit.value.intercept,
            sigma, beta, 1.0 / sigma, -1.0 * (beta / sigma)))
  }

  /** -(beta/sigma) == -beta * (1/sigma), and (1/sigma)*sigma == 1. */
  lemma ReciprocalQuotient(beta: real, sigma: real)
    requires sigma != 0.0
    ensures -1.0 * (beta / sigma) == -beta * (1.0 / sigma)
    ensures (1.0 / sigma) * sigma == 1.0
  {
  }

  /**
   * The calibration inverts the scanner's forward model: a density d read off
   * the calibrated image at HU value v satisfies sigma*d + beta == v, and a
   * material of density d scanned as sigma*d + beta is read back as d.
   */
  lemma {:induction false} CalibrationInvertsForwardModel(h2o: seq<real>, k2hpo4: seq<real>, hu: seq<real>, v: real, d: real)
    requires PhantomParameters(h2o, k2hpo4, hu).Ok?
    ensures var p := PhantomParameters(h2o, k2hpo4, hu).value;
      p.sigmaCt * (p.calibrationSlope * v + p.calibrationYint) + p.betaCt == v &&
      p.calibrationSlope * (p.sigmaCt * d + p.betaCt) + p.calibrationYint == d
  {
    var p := PhantomParameters(h2o, k2hpo4, hu).value;
    InverseLine(p.sigmaCt, p.betaCt, p.calibrationSlope, p.calibrationYint, v, d);
  }

  lemma InverseLine(sigma: real, beta: real, slope: real, yint: real, v: real, d: real)
    requires slope * sigma == 1.0 && yint == -beta * slope
    ensures sigma * (slope * v + yint) + beta == v
    ensures slope * (sigma * d + beta) + yint == d
  {
    assert sigma * (slope * v) == (slope * sigma) * v;
    assert sigma * (-beta * slope) == -beta * (slope * sigma);
    assert slope * (sigma * d) == (slope * sigma) * d;
  }

  /** The fitted line is the least-squares line through the rods. */
  lemma {:induction false} PhantomLeastSquares(h2o: seq<real>, k2hpo4: seq<real>, hu: seq<real>, a: real, b: real)
    requires PhantomParameters(h2o, k2hpo4, hu).Ok?
    ensures var p := PhantomParameters(h2o, k2hpo4, hu).value;
      SSE(p.xValues, p.yValues, a, b) >= SSE(p.xValues, p.yValues, p.regressionSlope, p.regressionIntercept)
  {
    LeastSquares(k2hpo4, Sub(hu, h2o), a, b);
  }

  /**
   * Rods that lie exactly on HU = H2O + (sigma + 0.2174)*K2HPO4 + (beta - 999.6)
   * give back exactly that sigma and beta.
   */
  lemma {:induction false} PhantomExact(h2o: seq<real>, k2hpo4: seq<real>, hu: seq<real>, sigma: real, beta: real)
    requires |hu| == |h2o| == |k2hpo4| >= 2 && !AllIdentical(k2hpo4) && sigma != 0.0
    requires forall i :: 0 <= i < |hu| ==>
      hu[i] == h2o[i] + (sigma + SigmaOffset) * k2hpo4[i] + (beta - BetaOffset)
    ensures PhantomParameters(h2o, k2hpo4, hu).Ok?
    ensures PhantomParameters(h2o, k2hpo4, hu).value.sigmaCt == sigma
    ensures PhantomParameters(h2o, k2hpo4, hu).value.betaCt == beta
  {
    var y := Sub(hu, h2o);
    forall i | 0 <= i < |y| ensures y[i] == Affine(k2hpo4, sigma + SigmaOffset, beta - BetaOffset)[i] {
      assert y[i] == hu[i] - h2o[i];
    }
    assert y == Affine(k2hpo4, sigma + SigmaOffset, beta - BetaOffset);
    ExactFit(k2hpo4, y, sigma + SigmaOffset, beta - BetaOffset);
  }

  /**
   * applyPhantomParameters: MultiplyByK(Calibration Slope) then
   * AddConstant(Calibration Y-Intercept) on every voxel.
   */
  function ApplyPhantomParameters(img: seq<real>, calibrationSlope: real, calibrationYint: real): seq<real>
  {
    Affine(img, calibrationSlope, calibrationYint)
  }

  /** The calibrated image, pushed back through the forward model, is the scanned image. */
  lemma {:induction false} CalibratedImageRoundTrip(h2o: seq<real>, k2hpo4: seq<real>, hu: seq<real>, img: seq<real>)
    requires PhantomParameters(h2o, k2hpo4, hu).Ok?
    ensures var p := PhantomParameters(h2o, k2hpo4, hu).value;
      Affine(ApplyPhantomParameters(img, p.calibrationSlope, p.calibrationYint), p.sigmaCt, p.betaCt) == img
  {
    var p := PhantomParameters(h2o, k2hpo4, hu).value;
    var d := ApplyPhantomParameters(img, p.calibrationSlope, p.calibrationYint);
    forall i | 0 <= i < |img| ensures Affine(d, p.sigmaCt, p.betaCt)[i] == img[i] {
      InverseLine(p.sigmaCt, p.betaCt, p.calibrationSlope, p.calibrationYint, img[i], 0.0);
    }
  }

  /** The two dictionary entries phantomParameters_bmas200 returns. */
  datatype LineCalibration = LineCalibration(calibrationSlope: real, calibrationYint: real)

  /**
   * phantomParameters_bmas200: regress CHA density directly on HU; the slope
   * and intercept are the calibration.
   */
  function PhantomParametersBmas200(cha: seq<real>, hu: seq<real>): (r: Result<LineCalibration>)
    ensures r.Ok? <==> Regressable(hu, cha)
    ensures r.Ok? ==>
      r.value.calibrationSlope * Sxx(hu) == Sxy(hu, cha) &&
      r.value.calibrationSlope * Mean(hu) + r.value.calibrationYint == Mean(cha)
  {
    var fit := LinRegress(hu, cha);
    if fit.Err? then Err(fit.error)
    else Ok(LineCalibration(fit.value.slope, fit.value.intercept))
  }

  /** Rods exactly on cha = a*HU + b give back the calibration (a, b). */
  lemma {:induction false} Bmas200Exact(cha: seq<real>, hu: seq<real>, a: real, b: real)
    requires Regressable(hu, cha) && cha == Affine(hu, a, b)
    ensures PhantomParametersBmas200(cha, hu) == Ok(LineCalibration(a, b))
  {
    ExactFit(hu, cha, a, b);
  }

  // ---------------------------------------------------------------------------
  // Internal calibration

  /**
   * icLinearRegression: linregress, with the slope stored under slopeLabel and
   * then the intercept under yintLabel.
   */
  method IcLinearRegression(xs: seq<real>, ys: seq<real>, slopeLabel: string, yintLabel: string)
    returns (r: Result<OrderedDict<real>>)
    ensures r.Ok? <==> Regressable(xs, ys)
    ensures r.Ok? ==> (fresh(r.value) && r.value.Valid() &&
      r.value.entries == Put(Put([], slopeLabel, LinRegress(xs, ys).value.slope),
        yintLabel, LinRegress(xs, ys).value.intercept))
  {
    var fit := LinRegress(xs, ys);
    if fit.Err? {
      return Err(fit.error);
    }
    var d := new OrderedDict<real>();
    d.Set(slopeLabel, fit.value.slope);
    d.Set(yintLabel, fit.value.intercept);
    return Ok(d);
  }

  /**
   * The two entries icLinearRegression produces: slope then intercept under
   * distinct labels; under one shared label only the intercept survives.
   */
  lemma {:induction false} IcLinearRegressionEntries(slopeLabel: string, yintLabel: string, slope: real, yint: real)
    ensures slopeLabel != yintLabel ==>
      Put(Put([], slopeLabel, slope), yintLabel, yint) == [(slopeLabel, slope), (yintLabel, yint)]
    ensures slopeLabel == yintLabel ==>
      Put(Put([], slopeLabel, slope), yintLabel, yint) == [(yintLabel, yint)]
  {
    if slopeLabel != yintLabel {
      PutNew([(slopeLabel, slope)], yintLabel, yint);
    }
  }

  /**
   * icMaterialDensity: (HU/1000*mu_w*rho_w + mu_w*rho_w)/mu_m.  A zero material
   * attenuation makes Python raise ZeroDivisionError; here it is ZeroDenominator.
   */
  function IcMaterialDensity(hu: real, materialAtten: real, waterAtten: real, waterDensity: real): (r: Result<real>)
    ensures r.Ok? <==> materialAtten != 0.0
    ensures r.Ok? ==> r.value * materialAtten * 1000.0 == waterAtten * waterDensity * (hu + 1000.0)
  {
    if materialAtten == 0.0 then Err(ZeroDenominator)
    else
      MaterialDensityScale(hu, materialAtten, waterAtten, waterDensity);
      Ok((hu / 1000.0 * waterAtten * waterDensity + waterAtten * waterDensity) / materialAtten)
  }

  lemma MaterialDensityScale(hu: real, m: real, wa: real, wd: real)
    requires m != 0.0
    ensures (hu / 1000.0 * wa * wd + wa * wd) / m * m * 1000.0 == wa * wd * (hu + 1000.0)
  {
    var n := hu / 1000.0 * wa * wd + wa * wd;
    assert n / m * m == n;
    assert hu / 1000.0 * wa * wd * 1000.0 == hu * wa * wd;
    assert n * 1000.0 == wa * wd * (hu + 1000.0);
  }

  /** Water (HU 0, the water attenuation) has the water density; air (HU -1000) has none. */
  lemma MaterialDensityReferencePoints(waterAtten: real, waterDensity: real, materialAtten: real)
    requires waterAtten != 0.0 && materialAtten != 0.0
    ensures IcMaterialDensity(0.0, waterAtten, waterAtten, waterDensity) == Ok(waterDensity)
    ensures IcMaterialDensity(-1000.0, materialAtten, waterAtten, waterDensity) == Ok(0.0)
  {
    var r := IcMaterialDensity(0.0, waterAtten, waterAtten, waterDensity).value;
    assert r * waterAtten * 1000.0 == waterAtten * waterDensity * 1000.0;
    assert (r - waterDensity) * waterAtten == 0.0;
    ProductZero(r - waterDensity, waterAtten);
    var z := IcMaterialDensity(-1000.0, materialAtten, waterAtten, waterDensity).value;
    assert (z * 1000.0) * materialAtten == 0.0;
    ProductZero(z * 1000.0, materialAtten);
  }

  /** The attenuation tables icEffectiveEnergy reads: one energy column and nine mass-attenuation columns. */
  datatype AttenuationTables = AttenuationTables(
    energy: seq<real>,
    adipose: seq<real>, air: seq<real>, blood: seq<real>, bone: seq<real>, muscle: seq<real>,
    k2hpo4: seq<real>, cha: seq<real>, triglyceride: seq<real>, water: seq<real>)

  /** Every column has one entry per energy. */
  predicate Tabulated(t: AttenuationTables)
  {
    var n := |t.energy|;
    |t.adipose| == n && |t.air| == n && |t.blood| == n && |t.bone| == n && |t.muscle| == n &&
    |t.k2hpo4| == n && |t.cha| == n && |t.triglyceride| == n && |t.water| == n
  }

  /** The five reference-tissue attenuations at energy row i, in the order of HU_array. */
  function TissueRow(t: AttenuationTables, i: nat): (r: seq<real>)
    requires Tabulated(t) && i < |t.energy|
    ensures |r| == 5
  {
    [t.adipose[i], t.air[i], t.blood[i], t.bone[i], t.muscle[i]]
  }

  /** The inputs on which icEffectiveEnergy returns a dictionary. */
  predicate EnergyComputable(hu: seq<real>, t: AttenuationTables)
  {
    Tabulated(t) && |t.energy| >= 2 && |hu| == 5 && !AllIdentical(hu)
  }

  /** r squared of the tissue attenuations at row i against the tissue HU values. */
  function RowRSquared(hu: seq<real>, t: AttenuationTables, i: nat): real
    requires EnergyComputable(hu, t) && i < |t.energy|
  {
    LinRegress(hu, TissueRow(t, i)).value.rSquared
  }

  /** The dictionary icEffectiveEnergy returns, together with the selected row. */
  datatype EffectiveEnergy = EffectiveEnergy(
    row: nat,
    energy: real, maxRSquared: real,
    adipose: real, air: real, blood: real, bone: real, muscle: real,
    k2hpo4: real, cha: real, triglyceride: real, water: real)

  /** The entries icEffectiveEnergy reads at row i. */
  function EnergyAt(t: AttenuationTables, i: nat, r2: real): EffectiveEnergy
    requires Tabulated(t) && i < |t.energy|
  {
    EffectiveEnergy(i, t.energy[i], r2, t.adipose[i], t.air[i], t.blood[i], t.bone[i], t.muscle[i],
      t.k2hpo4[i], t.cha[i], t.triglyceride[i], t.water[i])
  }

  /**
   * icEffectiveEnergy: for every energy row from 1 on (row 0 keeps pandas' NaN
   * and never wins), regress the five tissue attenuations on the tissue HU
   * values and record r squared; then pick the first row with the largest
   * r squared and read every table at that row.  Tables of unequal length
   * are LengthMismatch; fewer than two rows leave nothing to pick (pandas
   * raises IndexError), which is EmptyInput; linregress's own errors pass
   * through.
   */
  method IcEffectiveEnergy(hu: seq<real>, t: AttenuationTables) returns (r: Result<EffectiveEnergy>)
    ensures r.Ok? <==> EnergyComputable(hu, t)
    ensures r.Ok? ==> var k := r.value.row;
      1 <= k < |t.energy| &&
      (forall j :: 1 <= j < |t.energy| ==> RowRSquared(hu, t, j) <= RowRSquared(hu, t, k)) &&
      (forall j :: 1 <= j < k ==> RowRSquared(hu, t, j) < RowRSquared(hu, t, k)) &&
      r.value == EnergyAt(t, k, RowRSquared(hu, t, k))
  {
    if !Tabulated(t) {
      return Err(LengthMismatch);
    }
    var n := |t.energy|;
    if n < 2 {
      return Err(EmptyInput);
    }
    var r2 := new real[n];
    for i := 1 to n
      invariant forall j :: 1 <= j < i ==> LinRegress(hu, TissueRow(t, j)).Ok?
      invariant forall j :: 1 <= j < i ==> r2[j] == LinRegress(hu, TissueRow(t, j)).value.rSquared
    {
      var fit := LinRegress(hu, TissueRow(t, i));
      if fit.Err? {
        return Err(fit.error);
      }
      r2[i] := fit.value.rSquared;
    }
    assert LinRegress(hu, TissueRow(t, 1)).Ok?;
    var best := 1;
    for j := 2 to n
      invariant 1 <= best < j
      invariant forall m :: 1 <= m < j ==> r2[m] <= r2[best]
      invariant forall m :: 1 <= m < best ==> r2[m] < r2[best]
    {
      if r2[j] > r2[best] {
        best := j;
      }
    }
    return Ok(EnergyAt(t, best, r2[best]));
  }

  /** The parameters applyInternalCalibration reads from its dictionary. */
  datatype InternalParameters = InternalParameters(
    massAttenSlope: real, massAttenYint: real,
    densitySlope: real, densityYint: real,
    triglycerideAtten: real, k2hpo4Atten: real)

  /** Voxel volume in cm^3 from the spacing in mm. */
  function VoxelVolumeCm(sp: Spacing): real
  {
    VoxelVolume(sp) / 1000.0
  }

  /** The two-component model is defined unless a denominator vanishes. */
  predicate InternalCalibratable(p: InternalParameters, sp: Spacing)
  {
    VoxelVolumeCm(sp) != 0.0 && p.k2hpo4Atten != p.triglycerideAtten
  }

  /**
   * applyInternalCalibration at one voxel of HU value v: mass attenuation and
   * Archimedean density by their HU lines, the voxel's mass, the K2HPO4 share
   * of it by the two-component (K2HPO4 / triglyceride) model, and back to a
   * density in mg/cc.
   */
  function InternalDensity(p: InternalParameters, volCm: real, v: real): real
    requires volCm != 0.0 && p.k2hpo4Atten != p.triglycerideAtten
  {
    var massAtten := p.massAttenSlope * v + p.massAttenYint;
    var archDensity := p.densitySlope * v + p.densityYint;
    var mass := archDensity * volCm;
    var k2hpo4Mass := mass * ((massAtten - p.triglycerideAtten) / (p.k2hpo4Atten - p.triglycerideAtten));
    k2hpo4Mass / volCm * 1000.0
  }

  /**
   * applyInternalCalibration over the voxel array.  With a zero voxel volume or
   * equal reference attenuations numpy produces NaN and infinity; here that is
   * ZeroDenominator.
   */
  method ApplyInternalCalibration(img: array<real>, p: InternalParameters, sp: Spacing)
    returns (r: Result<array<real>>)
    ensures r.Ok? <==> InternalCalibratable(p, sp)
    ensures r.Ok? ==> (fresh(r.value) && r.value.Length == img.Length &&
      forall i :: 0 <= i < img.Length ==> r.value[i] == InternalDensity(p, VoxelVolumeCm(sp), img[i]))
  {
    var volCm := VoxelVolumeCm(sp);
    if volCm == 0.0 || p.k2hpo4Atten == p.triglycerideAtten {
      return Err(ZeroDenominator);
    }
    var k2hpo4Density := new real[img.Length];
    for i := 0 to img.Length
      invariant forall j :: 0 <= j < i ==> k2hpo4Density[j] == InternalDensity(p, volCm, img[j])
    {
      var massAtten := p.massAttenSlope * img[i] + p.massAttenYint;
      var archDensity := p.densitySlope * img[i] + p.densityYint;
      var mass := archDensity * volCm;
      var k2hpo4Mass := mass * ((massAtten - p.triglycerideAtten) / (p.k2hpo4Atten - p.triglycerideAtten));
      k2hpo4Density[i] := k2hpo4Mass / volCm * 1000.0;
    }
    return Ok(k2hpo4Density);
  }

  /**
   * The voxel volume cancels: the K2HPO4 density is 1000 times the
   * Archimedean density times the K2HPO4 fraction of the two-component model,
   * so a voxel at the K2HPO4 attenuation is all K2HPO4 and one at the
   * triglyceride attenuation has none.
   */
  lemma TwoComponentModel(p: InternalParameters, volCm: real, v: real)
    requires volCm != 0.0 && p.k2hpo4Atten != p.triglycerideAtten
    ensures var archDensity := p.densitySlope * v + p.densityYint;
      var massAtten := p.massAttenSlope * v + p.massAttenYint;
      InternalDensity(p, volCm, v) ==
        1000.0 * archDensity * ((massAtten - p.triglycerideAtten) / (p.k2hpo4Atten - p.triglycerideAtten)) &&
      (massAtten == p.k2hpo4Atten ==> InternalDensity(p, volCm, v) == 1000.0 * archDensity) &&
      (massAtten == p.triglycerideAtten ==> InternalDensity(p, volCm, v) == 0.0)
  {
    VolumeCancels(p.densitySlope * v + p.densityYint,
      (p.massAttenSlope * v + p.massAttenYint - p.triglycerideAtten) / (p.k2hpo4Atten - p.triglycerideAtten), volCm);
    FractionEnds(p.massAttenSlope * v + p.massAttenYint, p.k2hpo4Atten, p.triglycerideAtten);
  }

  /** The K2HPO4 fraction is 1 at the K2HPO4 attenuation and 0 at the triglyceride one. */
  lemma FractionEnds(m: real, k: real, t: real)
    requires k != t
    ensures m == k ==> (m - t) / (k - t) == 1.0
    ensures m == t ==> (m - t) / (k - t) == 0.0
  {
  }

  lemma VolumeCancels(a: real, f: real, w: real)
    requires w != 0.0
    ensures (a * w) * f / w * 1000.0 == 1000.0 * a * f
  {
    assert (a * w) * f == (a * f) * w;
    assert ((a * f) * w) / w == a * f;
  }
}
