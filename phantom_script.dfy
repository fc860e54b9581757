/**
 * mindways_model3_phantom_calibration.py: read an image and a mask of the
 * Mindways Model 3 phantom, average the image over the five rods, fit the
 * phantom calibration, apply it to the image, and write the calibrated image
 * and a parameters file.
 *
 * Reading and writing images, the argument parser, the clock and the
 * process's own name and working directory are not modelled: the images
 * arrive as voxel sequences, and what the script learns from the outside
 * world (whether a path is a directory, the absolute path, argv[0], today's
 * date) arrives in an Invocation.
 */
module PhantomScript {
  import opened Sums
  import opened Regression
  import opened Outcomes
  import opened Voxels
  import opened Calibration
  import opened OrderedDicts
  import opened Report
  import opened Paths

  const ScriptVersion: real := 1.0

  /** Default H2O-equivalent densities of rods A to E, mg/cc. */
  const DefaultH2oDensities: seq<real> := [1012.25, 1056.95, 1103.57, 1119.52, 923.20]
  /** Default K2HPO4-equivalent densities of rods A to E, mg/cc. */
  const DefaultK2hpo4Densities: seq<real> := [-51.83, -53.40, 58.88, 157.05, 375.83]

  /** The script's inputs, with what it asks of the file system and the system. */
  datatype Invocation = Invocation(
    imagePath: string,
    imageIsDirectory: bool,   // os.path.isdir(image)
    imageAbsolutePath: string, // os.path.abspath(image)
    maskPath: string,
    maskIsDirectory: bool,    // os.path.isdir(mask)
    scriptName: string,       // sys.argv[0]
    today: string,            // str(date.today())
    h2oDensities: seq<real>,
    k2hpo4Densities: seq<real>)

  /** imageType 1 and 2 of the script. */
  datatype ImageType = Dicom | Nifti

  /**
   * The reader choice: a directory is a DICOM series, a file whose last
   * extension is exactly ".nii" or ".nifti" is NIFTI, anything else ends the
   * script with "image format not recognized".
   */
  function Classify(path: string, isDirectory: bool): (r: Result<ImageType>)
    ensures r.Ok? <==> isDirectory || Extension(path) == ".nii" || Extension(path) == ".nifti"
    ensures r.Ok? ==> (r.value == Dicom <==> isDirectory)
    ensures r.Err? ==> r.error == UnrecognizedFormat(path)
  {
    if isDirectory then Ok(Dicom)
    else
      var ext := Extension(path);
      if ext == ".nii" || ext == ".nifti" then Ok(Nifti)
      else Err(UnrecognizedFormat(path))
  }

  /** A file ending in ".nii" or ".nifti" after a proper name is NIFTI; a compressed ".nii.gz" is not recognised. */
  lemma {:induction false} ClassifyByName(name: string)
    requires |name| > 0 && name[|name| - 1] != '.' && name[|name| - 1] != '/'
    ensures Classify(name + ".nii", false) == Ok(Nifti)
    ensures Classify(name + ".nifti", false) == Ok(Nifti)
    ensures Classify(name + ".nii.gz", false) == Err(UnrecognizedFormat(name + ".nii.gz"))
  {
    SplitExtOfName(name, ".nii");
    SplitExtOfName(name, ".nifti");
    var stem := name + ".nii";
    assert stem[|stem| - 1] == 'i';
    SplitExtOfName(stem, ".gz");
    assert stem + ".gz" == name + ".nii.gz";
  }

  /** Name of the calibrated image (fileName). */
  function OutputFileName(t: ImageType, basename: string): string
  {
    match t
    case Dicom => basename + "_K2HPO4.nii"
    case Nifti => ReplaceAll(basename, ".nii", "_PC_K2HPO4.nii")
  }

  /** The report's ID (org_fileName). */
  function ReportId(t: ImageType, basename: string): string
  {
    match t
    case Dicom => basename
    case Nifti => ReplaceAll(basename, ".nii", "")
  }

  /** Name of the parameters file. */
  function ReportFileName(id: string): string
  {
    id + "_PhanCalibParameters.txt"
  }

  /**
   * The names the script derives: a DICOM series gets a suffix after its
   * directory name; a ".nii" file whose only ".nii" is its extension has it
   * replaced, and its ID is the name without it.
   */
  lemma {:induction false} OutputNames(name: string)
    requires forall i :: 0 <= i < |name| ==> !OccursAt(name + ".nii", ".nii", i)
    ensures OutputFileName(Dicom, name) == name + "_K2HPO4.nii" && ReportId(Dicom, name) == name
    ensures OutputFileName(Nifti, name + ".nii") == name + "_PC_K2HPO4.nii"
    ensures ReportId(Nifti, name + ".nii") == name
    ensures ReportFileName(ReportId(Nifti, name + ".nii")) == name + "_PhanCalibParameters.txt"
  {
    assert name + ".nii" + "" == name + ".nii";
    ReplaceFirst(name, ".nii", "", "_PC_K2HPO4.nii");
    ReplaceFirst(name, ".nii", "", "");
    assert name + "" + "" == name;
  }

  /**
   * Every ".nii" of a NIFTI name is replaced, from the left: up to the first
   * one the names keep the input, the first becomes "_PC_K2HPO4.nii" in the
   * image name and disappears from the ID, and the rest of the name is
   * renamed in the same way.
   */
  lemma {:induction false} NiftiNamesStep(a: string, b: string)
    requires forall i :: 0 <= i < |a| ==> !OccursAt(a + ".nii" + b, ".nii", i)
    ensures OutputFileName(Nifti, a + ".nii" + b) == a + "_PC_K2HPO4.nii" + OutputFileName(Nifti, b)
    ensures ReportId(Nifti, a + ".nii" + b) == a + ReportId(Nifti, b)
  {
    ReplaceFirst(a, ".nii", b, "_PC_K2HPO4.nii");
    ReplaceFirst(a, ".nii", b, "");
    assert a + "" + ReportId(Nifti, b) == a + ReportId(Nifti, b);
  }

  /**
   * A ".nifti" file with no ".nii" in its name keeps its name: the calibrated
   * image is named like the input, and is written to the input's directory.
   */
  lemma {:induction false} NiftiNameUnchanged(basename: string)
    requires !Occurs(basename, ".nii")
    ensures OutputFileName(Nifti, basename) == basename
    ensures ReportId(Nifti, basename) == basename
  {
    ReplaceAbsent(basename, ".nii", "_PC_K2HPO4.nii");
    ReplaceAbsent(basename, ".nii", "");
  }

  /** The mask labels of rods A to E. */
  const RodLabels: seq<real> := [1.0, 2.0, 3.0, 4.0, 5.0]

  /**
   * The mean HU of rods A to E, the mask labels 1 to 5, in that order.  A rod
   * without a voxel has no mean: EmptyRegion.
   */
  function RodMeans(img: seq<real>, mask: seq<real>): (r: Result<seq<real>>)
    requires |img| == |mask|
    ensures r.Ok? <==> forall i :: 0 <= i < 5 ==> |RodValues(img, mask, RodLabels[i])| > 0
    ensures r.Err? ==> r.error == EmptyRegion
    ensures r.Ok? ==> (|r.value| == 5 &&
      forall i :: 0 <= i < 5 ==> r.value[i] == Mean(RodValues(img, mask, RodLabels[i])))
  {
    var means := seq(5, i requires 0 <= i < 5 => RodMean(img, mask, RodLabels[i]));
    assert forall i :: 0 <= i < 5 ==> (means[i].Some? <==> |RodValues(img, mask, RodLabels[i])| > 0);
    if forall i :: 0 <= i < 5 ==> means[i].Some? then
      Ok(seq(5, i requires 0 <= i < 5 => means[i].value))
    else
      Err(EmptyRegion)
  }

  /**
   * With the default phantom densities and five rod means the calibration
   * succeeds unless the fitted slope is exactly the sigma offset.
   */
  lemma {:induction false} DefaultsCalibrate(hu: seq<real>)
    requires |hu| == 5
    ensures Regressable(DefaultK2hpo4Densities, Sub(hu, DefaultH2oDensities))
    ensures PhantomParameters(DefaultH2oDensities, DefaultK2hpo4Densities, hu).Ok? <==>
      Slope(DefaultK2hpo4Densities, Sub(hu, DefaultH2oDensities)) != SigmaOffset
  {
    assert DefaultK2hpo4Densities[1] != DefaultK2hpo4Densities[0];
  }

  /** What the parameters file reports. */
  datatype ReportInputs = ReportInputs(
    id: string,
    outputFile: string,
    scriptName: string,
    today: string,
    imageDirectory: string,
    image: string,
    maskDirectory: string,
    mask: string,
    h2oDensities: seq<real>,
    k2hpo4Densities: seq<real>,
    rodHu: seq<real>,
    calibration: PhantomCalibration)

  /** The keys of parameters_dict, in order. */
  const ReportKeys: seq<string> := [
    "ID", "Output File", "Python Script", "Version", "Date Created",
    "Image Directory", "Image", "Mask Directory", "Mask",
    "Phantom H2O Densities", "Phantom K2HPO4 Densities", "Phantom Density Rod HU",
    "Y Values", "X Values", "Sigma_CT", "Beta_CT",
    "Regression Slope", "Regression Y-Intercept",
    "Calibration Slope", "Calibration Y-Intercept"]

  /** The n-th item of parameters_dict, in assignment order. */
  function ReportItem(ri: ReportInputs, n: nat): (string, ReportValue)
    requires n < 20
  {
    var c := ri.calibration;
    match n
    case 0 => ("ID", Text(ri.id))
    case 1 => ("Output File", Text(ri.outputFile))
    case 2 => ("Python Script", Text(ri.scriptName))
    case 3 => ("Version", Number(ScriptVersion))
    case 4 => ("Date Created", Text(ri.today))
    case 5 => ("Image Directory", Text(ri.imageDirectory))
    case 6 => ("Image", Text(ri.image))
    case 7 => ("Mask Directory", Text(ri.maskDirectory))
    case 8 => ("Mask", Text(ri.mask))
    case 9 => ("Phantom H2O Densities", Numbers(ri.h2oDensities))
    case 10 => ("Phantom K2HPO4 Densities", Numbers(ri.k2hpo4Densities))
    case 11 => ("Phantom Density Rod HU", Numbers(ri.rodHu))
    case 12 => ("Y Values", NumberArray(c.yValues))
    case 13 => ("X Values", Numbers(c.xValues))
    case 14 => ("Sigma_CT", Number(c.sigmaCt))
    case 15 => ("Beta_CT", Number(c.betaCt))
    case 16 => ("Regression Slope", Number(c.regressionSlope))
    case 17 => ("Regression Y-Intercept", Number(c.regressionIntercept))
    case 18 => ("Calibration Slope", Number(c.calibrationSlope))
    case _ => ("Calibration Y-Intercept", Number(c.calibrationYint))
  }

  /** The first n items of parameters_dict. */
  function ReportPrefix(ri: ReportInputs, n: nat): (r: seq<(string, ReportValue)>)
    requires n <= 20
    ensures |r| == n && forall i :: 0 <= i < n ==> r[i] == ReportItem(ri, i)
  {
    seq(n, i requires 0 <= i < n => ReportItem(ri, i))
  }

  /** The items of parameters_dict. */
  function ReportEntries(ri: ReportInputs): seq<(string, ReportValue)>
  {
    ReportPrefix(ri, 20)
  }

  /** The twenty keys are distinct, so every assignment adds an item. */
  lemma ReportKeysDistinct()
    ensures |ReportKeys| == 20
    ensures forall i, j :: 0 <= i < j < |ReportKeys| ==> ReportKeys[i] != ReportKeys[j]
  {
    forall i, j | 0 <= i < j < |ReportKeys| ensures ReportKeys[i] != ReportKeys[j] {
      assert |ReportKeys[i]| != |ReportKeys[j]| || ReportKeys[i][..3] != ReportKeys[j][..3] ||
        ReportKeys[i] != ReportKeys[j];
    }
  }

  /** The report's items carry the twenty keys in order, each once. */
  lemma {:induction false} ReportEntriesKeys(ri: ReportInputs)
    ensures |ReportEntries(ri)| == 20
    ensures forall i :: 0 <= i < 20 ==> ReportEntries(ri)[i].0 == ReportKeys[i]
    ensures DistinctKeys(ReportEntries(ri))
  {
    ReportKeysDistinct();
    forall i | 0 <= i < 20 ensures ReportItem(ri, i).0 == ReportKeys[i] {
    }
  }

  /**
   * Reading the parameters file back gives the twenty keys in order, each
   * with the text of its value.
   */
  lemma {:induction false} ReportReadsBack(ri: ReportInputs, fmt: Formats)
    requires Parsable(ReportEntries(ri), fmt)
    ensures |ParseReport(ReportText(ReportEntries(ri), fmt))| == 20
    ensures forall i :: 0 <= i < 20 ==>
      ParseReport(ReportText(ReportEntries(ri), fmt))[i] == (ReportKeys[i], Show(ReportItem(ri, i).1, fmt))
  {
    ReportEntriesKeys(ri);
    ReportRoundTrip(ReportEntries(ri), fmt);
  }

  /** No tab or newline in the keys describing the run. */
  lemma RunKeysOneLine()
    ensures forall i :: 0 <= i < 5 ==> '\t' !in ReportKeys[i] && '\n' !in ReportKeys[i]
  {
  }

  /** No tab or newline in the keys naming the inputs. */
  lemma InputKeysOneLine()
    ensures forall i :: 5 <= i < 9 ==> '\t' !in ReportKeys[i] && '\n' !in ReportKeys[i]
  {
  }

  /** No tab or newline in the keys of the phantom's data. */
  lemma PhantomKeysOneLine()
    ensures forall i :: 9 <= i < 14 ==> '\t' !in ReportKeys[i] && '\n' !in ReportKeys[i]
  {
  }

  /** No tab or newline in the keys of the calibration results. */
  lemma CalibrationKeysOneLine()
    ensures forall i :: 14 <= i < 20 ==> '\t' !in ReportKeys[i] && '\n' !in ReportKeys[i]
  {
  }

  /** No key holds a tab or a newline. */
  lemma ReportKeysOneLine()
    ensures forall i :: 0 <= i < |ReportKeys| ==> '\t' !in ReportKeys[i] && '\n' !in ReportKeys[i]
  {
    RunKeysOneLine();
    InputKeysOneLine();
    PhantomKeysOneLine();
    CalibrationKeysOneLine();
  }

  /** None of the report's text fields holds a newline. */
  predicate TextFieldsOneLine(ri: ReportInputs)
  {
    '\n' !in ri.id && '\n' !in ri.outputFile && '\n' !in ri.scriptName && '\n' !in ri.today &&
    '\n' !in ri.imageDirectory && '\n' !in ri.image && '\n' !in ri.maskDirectory && '\n' !in ri.mask
  }

  /** Every text item of the report is one of its text fields. */
  lemma ReportItemText(ri: ReportInputs, n: nat)
    requires n < 20 && TextFieldsOneLine(ri)
    ensures ReportItem(ri, n).1.Text? ==> '\n' !in ReportItem(ri, n).1.text
  {
  }

  /**
   * With one-line formats and newline-free text fields, the parameters file
   * can be read back: every item is one line.
   */
  lemma {:induction false} ReportParsable(ri: ReportInputs, fmt: Formats)
    requires OneLineFormats(fmt) && TextFieldsOneLine(ri)
    ensures Parsable(ReportEntries(ri), fmt)
  {
    ReportEntriesKeys(ri);
    ReportKeysOneLine();
    forall i | 0 <= i < 20
      ensures '\t' !in ReportEntries(ri)[i].0 && '\n' !in ReportEntries(ri)[i].0 && '\n' !in Show(ReportEntries(ri)[i].1, fmt)
    {
      ReportItemText(ri, i);
      ShowOneLine(ReportItem(ri, i).1, fmt);
    }
  }

  /** Assigning the n-th key appends the n-th item. */
  lemma {:induction false} NextKeyNew(ri: ReportInputs, n: nat)
    requires n < 20
    ensures Put(ReportPrefix(ri, n), ReportItem(ri, n).0, ReportItem(ri, n).1) == ReportPrefix(ri, n + 1)
  {
    var e := ReportEntries(ri);
    ReportEntriesKeys(ri);
    assert ReportPrefix(ri, n) == e[..n];
    forall i | 0 <= i < n ensures Keys(e[..n])[i] != e[n].0 {
      assert Keys(e[..n])[i] == e[i].0;
    }
    PutNew(e[..n], e[n].0, e[n].1);
    assert e[..n] + [e[n]] == ReportPrefix(ri, n + 1);
  }

  /** parameters_dict, assigned key by key. */
  method BuildReport(ri: ReportInputs) returns (d: OrderedDict<ReportValue>)
    ensures fresh(d) && d.Valid()
    ensures d.Items() == ReportEntries(ri)
  {
    var c := ri.calibration;
    d := new OrderedDict();
    assert d.entries == ReportPrefix(ri, 0);
    d.Set("ID", Text(ri.id));
    assert d.entries == ReportPrefix(ri, 1) by { NextKeyNew(ri, 0); }
    d.Set("Output File", Text(ri.outputFile));
    assert d.entries == ReportPrefix(ri, 2) by { NextKeyNew(ri, 1); }
    d.Set("Python Script", Text(ri.scriptName));
    assert d.entries == ReportPrefix(ri, 3) by { NextKeyNew(ri, 2); }
    d.Set("Version", Number(ScriptVersion));
    assert d.entries == ReportPrefix(ri, 4) by { NextKeyNew(ri, 3); }
    d.Set("Date Created", Text(ri.today));
    assert d.entries == ReportPrefix(ri, 5) by { NextKeyNew(ri, 4); }
    d.Set("Image Directory", Text(ri.imageDirectory));
    assert d.entries == ReportPrefix(ri, 6) by { NextKeyNew(ri, 5); }
    d.Set("Image", Text(ri.image));
    assert d.entries == ReportPrefix(ri, 7) by { NextKeyNew(ri, 6); }
    d.Set("Mask Directory", Text(ri.maskDirectory));
    assert d.entries == ReportPrefix(ri, 8) by { NextKeyNew(ri, 7); }
    d.Set("Mask", Text(ri.mask));
    assert d.entries == ReportPrefix(ri, 9) by { NextKeyNew(ri, 8); }
    d.Set("Phantom H2O Densities", Numbers(ri.h2oDensities));
    assert d.entries == ReportPrefix(ri, 10) by { NextKeyNew(ri, 9); }
    d.Set("Phantom K2HPO4 Densities", Numbers(ri.k2hpo4Densities));
    assert d.entries == ReportPrefix(ri, 11) by { NextKeyNew(ri, 10); }
    d.Set("Phantom Density Rod HU", Numbers(ri.rodHu));
    assert d.entries == ReportPrefix(ri, 12) by { NextKeyNew(ri, 11); }
    d.Set("Y Values", NumberArray(c.yValues));
    assert d.entries == ReportPrefix(ri, 13) by { NextKeyNew(ri, 12); }
    d.Set("X Values", Numbers(c.xValues));
    assert d.entries == ReportPrefix(ri, 14) by { NextKeyNew(ri, 13); }
    d.Set("Sigma_CT", Number(c.sigmaCt));
    assert d.entries == ReportPrefix(ri, 15) by { NextKeyNew(ri, 14); }
    d.Set("Beta_CT", Number(c.betaCt));
    assert d.entries == ReportPrefix(ri, 16) by { NextKeyNew(ri, 15); }
    d.Set("Regression Slope", Number(c.regressionSlope));
    assert d.entries == ReportPrefix(ri, 17) by { NextKeyNew(ri, 16); }
    d.Set("Regression Y-Intercept", Number(c.regressionIntercept));
    assert d.entries == ReportPrefix(ri, 18) by { NextKeyNew(ri, 17); }
    d.Set("Calibration Slope", Number(c.calibrationSlope));
    assert d.entries == ReportPrefix(ri, 19) by { NextKeyNew(ri, 18); }
    d.Set("Calibration Y-Intercept", Number(c.calibrationYint));
    assert d.entries == ReportPrefix(ri, 20) by { NextKeyNew(ri, 19); }
  }

  /** What the script leaves behind: the calibrated image and the parameters file, with their names. */
  datatype ScriptOutput = ScriptOutput(
    calibrated: seq<real>,
    outputDirectory: string,  // image_pathname: both files are written there
    imageFileName: string,
    reportFileName: string,
    report: string)

  /** The parameters file's contents for an invocation whose steps all succeed. */
  function ScriptReport(inv: Invocation, t: ImageType, hu: seq<real>, cal: PhantomCalibration): ReportInputs
  {
    var image := Basename(inv.imagePath);
    ReportInputs(ReportId(t, image), OutputFileName(t, image), inv.scriptName, inv.today,
      Dirname(inv.imageAbsolutePath), image, Dirname(inv.maskPath), Basename(inv.maskPath),
      inv.h2oDensities, inv.k2hpo4Densities, hu, cal)
  }

  /**
   * The script from top to bottom.  It stops at the first failing step: an
   * unrecognised image, an unrecognised mask, a rod without voxels, then a
   * calibration that cannot be computed.
   */
  method RunScript(inv: Invocation, img: seq<real>, mask: seq<real>, fmt: Formats) returns (r: Result<ScriptOutput>)
    requires |img| == |mask|
    ensures r.Ok? <==> (Classify(inv.imagePath, inv.imageIsDirectory).Ok? &&
      Classify(inv.maskPath, inv.maskIsDirectory).Ok? && RodMeans(img, mask).Ok? &&
      PhantomParameters(inv.h2oDensities, inv.k2hpo4Densities, RodMeans(img, mask).value).Ok?)
    ensures Classify(inv.imagePath, inv.imageIsDirectory).Err? ==> r == Err(UnrecognizedFormat(inv.imagePath))
    ensures Classify(inv.imagePath, inv.imageIsDirectory).Ok? && Classify(inv.maskPath, inv.maskIsDirectory).Err? ==>
      r == Err(UnrecognizedFormat(inv.maskPath))
    ensures r.Ok? ==> (
      var t := Classify(inv.imagePath, inv.imageIsDirectory).value;
      var hu := RodMeans(img, mask).value;
      var cal := PhantomParameters(inv.h2oDensities, inv.k2hpo4Densities, hu).value;
      var ri := ScriptReport(inv, t, hu, cal);
      r.value.calibrated == ApplyPhantomParameters(img, cal.calibrationSlope, cal.calibrationYint) &&
      r.value.outputDirectory == Dirname(inv.imageAbsolutePath) &&
      r.value.imageFileName == ri.outputFile &&
      r.value.reportFileName == ReportFileName(ri.id) &&
      r.value.report == ReportText(ReportEntries(ri), fmt))
  {
    var imageType := Classify(inv.imagePath, inv.imageIsDirectory);
    if imageType.Err? {
      return Err(imageType.error);
    }
    var maskType := Classify(inv.maskPath, inv.maskIsDirectory);
    if maskType.Err? {
      return Err(maskType.error);
    }
    var phantomHu := RodMeans(img, mask);
    if phantomHu.Err? {
      return Err(phantomHu.error);
    }
    var cal := PhantomParameters(inv.h2oDensities, inv.k2hpo4Densities, phantomHu.value);
    if cal.Err? {
      return Err(cal.error);
    }
    var calibrated := ApplyPhantomParameters(img, cal.value.calibrationSlope, cal.value.calibrationYint);
    var ri := ScriptReport(inv, imageType.value, phantomHu.value, cal.value);
    var parameters := BuildReport(ri);
    var text := WriteTxt(parameters, fmt);
    return Ok(ScriptOutput(calibrated, ri.imageDirectory, ri.outputFile, ReportFileName(ri.id), text));
  }
}
