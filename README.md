# Mindways CT calibration, modelled in Dafny

This project models the density-calibration core of the Mindways Model 3 CT
phantom pipeline. It covers two files:

- `ogo_helper.py`: the helper library.
- `mindways_model3_phantom_calibration.py`: the phantom calibration script.

It proves properties of that model. Every intensity and density is an exact
`real`, and images are sequences of voxel values.

- **Phantom calibration.**
  - The script first averages the CT image (HU) over the five phantom rods.
  - It regresses `HU − H2O density` on the K2HPO4 density by ordinary least
    squares. `scipy.stats.linregress` is modelled by its closed form
    `Sxy/Sxx` and `ȳ − slope·x̄`.
  - It shifts the slope and intercept by the phantom constants 0.2174 and
    999.6, giving the scanner's `sigma` and `beta`.
  - It inverts the forward model `HU = sigma·ρ + beta` into the calibration
    `ρ = slope·HU + intercept` and applies that to every voxel.
- **Voxel maps.**
  - The affine maps: the calibration and the CHA/K2HPO4-to-ash conversions.
  - The lower-threshold clamp.
  - Rod extraction (mask threshold, mask, histogram mean over non-zero
    voxels).
  - The BMD metrics.
  - The two-component internal calibration.
- **Internal calibration.**
  - The material density.
  - The linear-regression dictionary.
  - The effective-energy search over attenuation tables.
- **Other parts of the helper library.**
  - The finite-element material table built by a density power law.
  - The PMMA caps and their merge into the bone image.
  - The parameters text file written from an insertion-ordered dictionary.
- **The driver script, end to end.**
  - Input classification (DICOM directory, `.nii`/`.nifti` file, or error).
  - Output and report names.
  - The twenty-key parameters report.

Modules, one per file: `Outcomes` (error and option types), `Sums`
(finite sums), `Regression`, `Voxels`, `Calibration`, `Materials`,
`PmmaCaps`, `OrderedDicts`, `Report`, `Paths`, `PhantomScript`.

Three behaviours of the code are worth knowing:

- Rod voxels whose HU value is exactly 0 are dropped from the rod mean,
  because `vtkImageAccumulate` ignores zeros after masking.
- `imageHistogramMean` does not guard against an empty rod, and neither does
  `bmd_metrics`. The model returns `None` or `EmptyRegion` for such a rod.
- A `.nifti` input whose name contains no `.nii` keeps its name as the
  output file name, and that file is written to the input's directory. This
  is `PhantomScript.NiftiNameUnchanged`.

## Model

| member | source | states |
|---|---|---|
| Regression.LinRegress | ogo_helper.py:1097 | linregress yields a line exactly when there are at least two paired samples whose x values are not all equal; otherwise an error |
| Regression.Slope | ogo_helper.py:1097 | for x values that are not all equal, Sxx is positive and the slope solves slope·Sxx = Sxy |
| Regression.Intercept | ogo_helper.py:1097 | the fitted line passes through the point of means (x̄, ȳ) |
| Regression.SxxPositive | ogo_helper.py:1097 | the centred sum of squares is never negative, and it is zero exactly when all samples are equal |
| Regression.NormalEquations | ogo_helper.py:1097 | the residuals of the fitted line sum to zero and are orthogonal to the x samples |
| Regression.LeastSquares | ogo_helper.py:1097 | any line's squared error is the fitted line's plus the squared gap between the two lines, so no line fits better |
| Regression.LeastSquaresUnique | ogo_helper.py:1097 | a line whose squared error is no larger than the fitted line's is the fitted line |
| Regression.ExactFit | ogo_helper.py:1097 | data lying exactly on a line are fitted by that line |
| Regression.FitSSE | ogo_helper.py:1097 | the fitted line leaves the squared error Syy − slope·Sxy |
| Regression.RSquaredExplained | ogo_helper.py:787-788 | r² lies in [0, 1]; for y that is not constant it is 1 − SSE/Syy, the share of the variation the line explains; for constant y it is 0 |
| Calibration.PhantomParameters | ogo_helper.py:1088-1115 | succeeds exactly when the arrays pair up, the K2HPO4 densities are not all equal and sigma ≠ 0. Then y_i = HU_i − H2O_i and x = K2HPO4; the regression slope solves slope·Sxx = Sxy and its line passes through the means; Sigma_CT = slope − 0.2174 and Beta_CT = intercept + 999.6; Calibration Slope · Sigma_CT = 1 and Calibration Y-Intercept = −Beta_CT · Calibration Slope |
| Calibration.CalibrationInvertsForwardModel | ogo_helper.py:1100-1105 | for every HU value v, the density d = slope·v + yint it is calibrated to satisfies Sigma_CT·d + Beta_CT = v, and every density scanned through the forward model is read back unchanged |
| Calibration.PhantomLeastSquares | ogo_helper.py:1095-1097 | no line fits the phantom's (x, y) pairs with a smaller squared error than the regression line |
| Calibration.PhantomExact | ogo_helper.py:1095-1105 | rods lying exactly on HU = H2O + (sigma + 0.2174)·K2HPO4 + (beta − 999.6) give back exactly that sigma and beta |
| Calibration.CalibratedImageRoundTrip | ogo_helper.py:141-164 | the calibrated image, pushed back through the forward model, is the scanned image voxel for voxel |
| Calibration.PhantomParametersBmas200 | ogo_helper.py:1117-1133 | succeeds exactly when HU and CHA density pair up and the HU values are not all equal; its slope solves slope·Sxx = Sxy and its line passes through the means |
| Calibration.Bmas200Exact | ogo_helper.py:1123-1129 | rods lying exactly on CHA = a·HU + b give back the calibration (a, b) |
| Calibration.IcLinearRegression | ogo_helper.py:833-845 | succeeds exactly when linregress does, with a fresh dictionary holding the slope under slopeLabel and then the intercept under yintLabel |
| Calibration.IcLinearRegressionEntries | ogo_helper.py:842-845 | under two distinct labels the dictionary has two items, the slope first; under one shared label only the intercept survives |
| Calibration.IcMaterialDensity | ogo_helper.py:859-868 | defined exactly when the material attenuation is non-zero, and then density · μ_material · 1000 = μ_water · ρ_water · (HU + 1000) |
| Calibration.MaterialDensityReferencePoints | ogo_helper.py:867 | water (HU 0, the water attenuation) has the water density, and air (HU −1000) has density 0 |
| Calibration.IcEffectiveEnergy | ogo_helper.py:769-821 | succeeds exactly when the ten table columns have equal length, there are at least two rows and the five tissue HU values are not all equal. The chosen row k ≥ 1 has the largest r² among rows from 1 on, no earlier row ties it, and every returned entry is read at row k |
| Calibration.ApplyInternalCalibration | ogo_helper.py:38-126 | succeeds exactly when the voxel volume is non-zero and the K2HPO4 and triglyceride attenuations differ; it returns a fresh array of the same length whose every voxel is the two-component density of the input voxel |
| Calibration.TwoComponentModel | ogo_helper.py:100-119 | the voxel volume cancels: the K2HPO4 density is 1000 · Archimedean density · K2HPO4 fraction, all of it at the K2HPO4 attenuation and none at the triglyceride attenuation |
| Voxels.AshConversions | ogo_helper.py:198-238 | the CHA-to-ash (0.839, 69.8) and K2HPO4-to-ash (1.06, 38.9) maps keep the voxel order and are undone by their inverse maps |
| Voxels.AffineConstant | ogo_helper.py:152-162 | an affine voxel map sends a constant image to a constant image |
| Voxels.AffineVoxelwise | ogo_helper.py:206-216 | an affine voxel map acts on each voxel alone: mapping a concatenation maps each part |
| Voxels.AffineInverse | ogo_helper.py:227-237 | an affine voxel map with a non-zero factor is undone by the inverse map |
| Voxels.LowerThreshold | ogo_helper.py:266-279 | the clamp keeps the voxel count, no voxel ends below t, and a voxel is left unchanged exactly when it is at least t |
| Voxels.LowerThresholdIdempotent | ogo_helper.py:272-278 | clamping twice at the same level is clamping once |
| Voxels.LowerThresholdIdentity | ogo_helper.py:272-278 | an image is left unchanged exactly when no voxel is below t |
| Voxels.LowerThresholdIsMax | ogo_helper.py:272-278 | each output voxel is at least the input voxel and is either the input voxel or t |
| Voxels.MaskThreshold | ogo_helper.py:984-998 | a voxel becomes 1 exactly when its mask label equals the rod label, and 0 exactly otherwise |
| Voxels.ApplyMask | ogo_helper.py:128-139 | a voxel is non-zero exactly when both the image and the mask are non-zero there, and otherwise keeps the image value or is 0 |
| Voxels.HistogramMean | ogo_helper.py:847-857 | there is no mean exactly when every voxel is 0; otherwise mean · (number of non-zero voxels) = sum of the voxels |
| Voxels.RodMean | mindways_model3_phantom_calibration.py:105-108 | a rod has a mean exactly when some voxel carries its label and a non-zero value, and the mean is the average of those voxels |
| Voxels.RodExtraction | mindways_model3_phantom_calibration.py:106-108 | mask threshold, then mask, then dropping zeros keeps exactly the rod's non-zero voxels, in order |
| Voxels.BmdMetrics | ogo_helper.py:240-264 | defined exactly when some voxel is non-zero. Then BMD · count = sum, volume_mm = count · voxel volume, volume_cm · 1000 = volume_mm, and BMC · 1000 = sum · voxel volume |
| Voxels.BmdMeanIsHistogramMean | ogo_helper.py:246-254 | the integral BMD of bmd_metrics is the mean imageHistogramMean gives for the same image |
| Voxels.NonZeroAllNonZero | ogo_helper.py:854 | every voxel kept by the histogram is non-zero |
| Materials.MaxOf | ogo_helper.py:1025 | the largest cell id is one of the ids and no id exceeds it |
| Materials.BuildMaterialTable | ogo_helper.py:1000-1059 | fails exactly on an empty mesh or a largest id below −1. Otherwise the bone arrays have max_id + 1 entries, modulus 0 is 1 and modulus i ≥ 1 is Emax·pow(i·0.001, exponent), every Poisson ratio is the given one, and the materials are PMMA under its id, then the bone array under id 1 (replacing PMMA if its id is 1) |
| Materials.BoneModuliIncreasing | ogo_helper.py:1037-1045 | a power law increasing in density gives moduli increasing with the density bin from bin 1 on |
| PmmaCaps.TruncateToInt | ogo_helper.py:532-539 | int() truncates toward zero: the result is at most x and within 1 of it for x ≥ 0, and at least x and within 1 of it for x < 0 |
| PmmaCaps.BoxExtent | ogo_helper.py:532-539 | fails exactly when a spacing is 0; otherwise each extent bound is the truncated quotient of the model bound by the spacing along its axis |
| PmmaCaps.PaddedExtent | ogo_helper.py:563-570 | each cap grows exactly one extent coordinate by the thickness: femoral head the lower y face, greater trochanter the upper y face, inferior vertebral the lower z face, superior vertebral and femoral head SLS the upper z face |
| PmmaCaps.PaddedVoxelCount | ogo_helper.py:559-570 | growing by a non-negative thickness keeps the extent non-empty and adds thickness layers of the grown face's area |
| PmmaCaps.CapLayout | ogo_helper.py:523-573 | the box keeps its fill value, the PMMA layer holds exactly the points beyond the grown face at most thickness voxels away, and every other point of the grid is 0 |
| PmmaCaps.PointAtContained | ogo_helper.py:315-325 | every scalar position of the padded image names a voxel of the image's extent |
| PmmaCaps.CombineTwoVoxel | ogo_helper.py:305-378 | merging two caps (femoral head and greater trochanter; likewise superior and inferior for combineImageData_VC): bone that only PMMA layers cover stays bone, clamped at 0, and on empty background the two cap values add up |
| PmmaCaps.CombineSlsVoxel | ogo_helper.py:380-428 | merging one cap: outside the cap the voxel is the image clamped at 0; bone under the PMMA layer stays bone; on empty background the cap value is written, clamped at 0 |
| PmmaCaps.CapImage | ogo_helper.py:315-325 | a cap padded to the bone image's extent has one scalar per grid voxel, and each is the cap's value at that voxel: the fill value in the box, the PMMA id in the layer, 0 elsewhere |
| PmmaCaps.CombineSlsCap | ogo_helper.py:380-428 | merging a padded cap: outside it, and on bone outside the box, the image stays, clamped at 0; on empty background the box gets the fill value and the layer the PMMA id, clamped at 0 |
| PmmaCaps.CombineTwoCaps | ogo_helper.py:305-378 | merging two padded caps: bone outside both boxes stays, clamped at 0, and on empty background the sum of the two caps' values at that voxel is written, clamped at 0 |
| PmmaCaps.CombineNonNegative | ogo_helper.py:369-375 | the combined image has no negative voxel |
| OrderedDicts.PutKeys | mindways_model3_phantom_calibration.py:163-183 | after d[k] = v the keys are unchanged if k was present; otherwise k is appended last |
| OrderedDicts.PutLookup | mindways_model3_phantom_calibration.py:163-183 | after d[k] = v, k maps to v and every other key keeps its value |
| OrderedDicts.PutNew | mindways_model3_phantom_calibration.py:163-183 | assigning a key that is not yet present appends the item |
| OrderedDicts.PutPresent | mindways_model3_phantom_calibration.py:163-183 | assigning a key that is present keeps its position and only changes its value |
| OrderedDicts.PutDistinct | mindways_model3_phantom_calibration.py:163-183 | assignment keeps the keys unique |
| OrderedDicts.PutAllDistinct | mindways_model3_phantom_calibration.py:163-183 | assigning items with distinct keys one by one to an empty dictionary keeps every item, in order |
| OrderedDicts.OrderedDict.Set | mindways_model3_phantom_calibration.py:164 | d[k] = v replaces the items by the assignment's result and keeps the keys unique |
| OrderedDicts.OrderedDict.Get | ogo_helper.py:51-56 | reading d[k] fails, as KeyError does, exactly when the key is absent |
| Report.ShowOneLine | ogo_helper.py:1430 | str() of a value holds no newline when the value is newline-free text, or numbers that Python and numpy print on one line |
| Report.WriteTxt | ogo_helper.py:1429-1430 | the text written is one line per item of the dictionary, in its order |
| Report.ReportTextAppend | ogo_helper.py:1429-1430 | the file of a concatenation of items is the concatenation of their files |
| Report.ParseLine | ogo_helper.py:1430 | a line with a tab-free, newline-free key and a newline-free value is read back as that key and value |
| Report.ReportRoundTrip | ogo_helper.py:1428-1431 | reading the file back at tabs and newlines gives every key with the text of its value, in order |
| Paths.Basename | mindways_model3_phantom_calibration.py:65 | the base name is the suffix of the path that starts right after its last slash: it has no slash, and it is the whole path or follows a slash |
| Paths.Dirname | mindways_model3_phantom_calibration.py:64 | the directory name is a prefix of the path, empty exactly when the path has no slash; only slashes lie between its end and the last slash; it runs to the last slash when it is all slashes, and otherwise ends in a character other than a slash |
| Paths.DirnameBasename | mindways_model3_phantom_calibration.py:64-67 | a path without a slash has an empty directory and is its own base name; a path whose last slash follows a non-slash is directory + "/" + base name |
| Paths.SplitExt | mindways_model3_phantom_calibration.py:78 | root + extension is the path. A non-empty extension starts at the last dot, holds no slash, and some character of the last component before it is not a dot; the extension is empty only when every dot of the last component has only dots before it in that component |
| Paths.SplitExtOfName | mindways_model3_phantom_calibration.py:95 | a proper name followed by a dot and a tail free of dots and slashes splits into exactly that name and that extension |
| Paths.ReplaceAbsent | mindways_model3_phantom_calibration.py:147 | replacing a pattern that does not occur changes nothing |
| Paths.ReplaceFirst | mindways_model3_phantom_calibration.py:147 | replacement scans from the left: the first occurrence is replaced, the text before it is kept, and the scan goes on after it |
| PhantomScript.Classify | mindways_model3_phantom_calibration.py:72-101 | a path is accepted exactly when it is a directory or its last extension is exactly .nii or .nifti; it is DICOM exactly when it is a directory; a rejected path is named in the error |
| PhantomScript.ClassifyByName | mindways_model3_phantom_calibration.py:78-85 | name.nii and name.nifti are NIFTI, and name.nii.gz is rejected |
| PhantomScript.OutputNames | mindways_model3_phantom_calibration.py:144-160 | a DICOM series is named basename + "_K2HPO4.nii" with ID basename; for a file name.nii whose only ".nii" is the extension, the output is name_PC_K2HPO4.nii, the ID is name and the report is name_PhanCalibParameters.txt |
| PhantomScript.NiftiNamesStep | mindways_model3_phantom_calibration.py:147-160 | every ".nii" of a NIFTI base name is replaced from the left: up to the first one the name is kept, that one becomes "_PC_K2HPO4.nii" in the output name and disappears from the ID, and the rest is named in the same way |
| PhantomScript.NiftiNameUnchanged | mindways_model3_phantom_calibration.py:147 | a NIFTI name containing no ".nii" (a .nifti file) is its own output name and its own ID |
| PhantomScript.RodMeans | mindways_model3_phantom_calibration.py:105-130 | succeeds exactly when each of the labels 1 to 5 has a rod voxel; then the five means are those of rods A to E, in label order |
| PhantomScript.DefaultsCalibrate | mindways_model3_phantom_calibration.py:47-52 | with the default phantom densities, any five rod means can be regressed, and the calibration succeeds exactly when the fitted slope is not 0.2174 |
| PhantomScript.ReportKeysDistinct | mindways_model3_phantom_calibration.py:164-183 | the report has twenty distinct keys |
| PhantomScript.ReportEntriesKeys | mindways_model3_phantom_calibration.py:163-183 | the report's items carry the twenty keys from ID to Calibration Y-Intercept in order, each once |
| PhantomScript.BuildReport | mindways_model3_phantom_calibration.py:163-183 | twenty successive assignments build a dictionary whose items are the twenty report items in order; the calibration values are copied unchanged |
| PhantomScript.ReportParsable | mindways_model3_phantom_calibration.py:163-188 | when no text field holds a newline and floats and arrays print on one line, every key and value of the report fits on one line, so the file can be read back |
| PhantomScript.ReportReadsBack | mindways_model3_phantom_calibration.py:188 | reading the parameters file back gives the twenty keys in order, each with the text of its value |
| PhantomScript.RunScript | mindways_model3_phantom_calibration.py:57-188 | the script succeeds exactly when image and mask are recognised, every rod has voxels and the calibration is defined; a rejected image or mask is reported by its path. On success it writes the calibrated image and the parameters file, with the derived names, into the image's directory |

## Left out

- Image and mesh I/O is not modelled. This covers the DICOM and NIFTI readers and writers, `writeN88Model`, `os.chdir`, and opening and closing the text file. Images arrive as voxel sequences, and `WriteTxt` and `RunScript` return the text and names that would be written.
- The VTK, SimpleITK and scipy filters outside the calibration are not modelled. These are registration, ICP, marching cubes, resampling, reorientation, connectivity, mesh generation, casts, `extractBox`, `vertebralBodyExtract` and `icInterpolation`. They are foreign library calls whose behaviour is not in the source.
- `message` and the `start_time` clock are not modelled. They only log.
- argparse and `sys.exit` are not modelled. An error exit is an `Err` result.
- The script does not check that five densities are given; argparse's `nargs = 5` does that. Arrays whose lengths do not pair up end in `LengthMismatch` from `PhantomParameters`.
- Path facts that depend on the file system or the process are inputs of `RunScript`: `os.path.isdir`, `os.path.abspath`, `sys.argv[0]` and `date.today()`.
- How Python prints a float and how numpy prints an array are parameters (`Formats`). `math.pow` is the parameter `pow` of `BuildMaterialTable`.
- Floating point is not modelled: no rounding, NaN or infinity, and no VTK scalar types (float, short, unsigned char). Every value is an exact `real`. Where numpy or VTK would produce NaN or infinity, the model returns an error instead:
  - a zero sigma: `DegenerateFit`;
  - an empty region: `EmptyRegion` or `None`;
  - a zero voxel volume or equal reference attenuations: `ZeroDenominator`.
- Calibration.PhantomParameters: numpy broadcasting of arrays of unequal length is not modelled. Such arrays are `LengthMismatch`.
- Regression.LinRegress: only the slope, intercept and r² are modelled. The p-value and standard errors are not. For a single sample, where scipy returns NaN, the model gives the error `SingleSample`.
- Calibration.IcEffectiveEnergy: pandas' DataFrame and NaN handling are not modelled. Row 0 holds NaN in the source and is never chosen. Tables of unequal length are `LengthMismatch`. Fewer than two rows give `EmptyInput`, where pandas raises `IndexError`.
- PmmaCaps.CapLayout and the other cap members: only the box, its padding and the merge are modelled. VTK's conversion of the fill value `inval` to a `short` and the cap image's origin are not modelled, and the cap is taken to lie on the bone image's grid.
- Paths.ReplaceAll: it requires a non-empty pattern. The script only replaces ".nii".
- PhantomScript.RunScript: it requires the image and the mask to have the same number of voxels. The script relies on the two files being co-registered.
- Materials.BuildMaterialTable: the bone arrays are exact reals, not numpy float32.
