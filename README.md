# DNG colour solver — a Dafny model

This project models the colour core of `py_dng_color`. That core turns the
calibration data of a DNG raw file into colour transforms:

- `color_info.py` holds the immutable calibration record `ColorInfo`:
  - two colour matrices and two camera calibrations;
  - the chromaticities of the two calibration illuminants;
  - the analog balance;
  - `standardized()`, which reorders the record so that the first
    illuminant has the lower correlated colour temperature.
- `color_utils.py` holds the colour maths:
  - McCamy's temperature approximation;
  - xy <-> XYZ conversion with its clamp;
  - the linearized Bradford white-point adaptation;
  - the standard illuminant chromaticities and matrices.
- `color_spec.py` is the solver `ColorSpec`:
  - it interpolates the calibrated matrices by inverse temperature (mired);
  - it normalizes camera neutrals;
  - it finds the white point of a camera neutral with a bounded fixed-point
    loop;
  - it builds the camera -> PCS (XYZ D50) and camera -> linear sRGB
    transforms.

Modules, one per source file plus two shared ones:

| module | file | contents |
|---|---|---|
| `LinAlg` | `linalg.dfy` | 3-vectors and 3x3 matrices over exact reals, `numpy.linalg.inv` and `solve` via the adjugate |
| `Errors` | `errors.dfy` | the failure values and `Result` |
| `ColorUtils` | `color_utils.dfy` | `color_utils.py` |
| `ColorInfo` | `color_info.dfy` | `color_info.py` |
| `ColorSpec` | `color_spec.dfy` | `color_spec.py` |

Design decisions:

- **Exact reals instead of floats.** A computation that raises in Python
  returns `Err(...)` in the model:
  - `LinAlgError` for a singular matrix in `inv` or `solve`;
  - `AssertionError` for the assert in `pcs_from_xy`;
  - `NameError` for the undefined fallback in `xy_from_xyz` (see Findings).
- **`NonFinite`.** A float division by zero does not raise in numpy; it
  produces inf or nan. Where an infinity still leads to a finite matrix, the
  model follows it (`Weight` records g = -inf). `Err(NonFinite)` marks a
  value that would be nan:
  - the matrix of `camera_from_xyz` for a white on McCamy's pole
    y = 0.1858 with x <= 0.3320 (its temperature is nan; with x > 0.3320 it
    is +inf and picks the second calibrated matrix), or for temp2 == 0 on the
    blending branch (g = -inf / -inf);
  - the camera neutral of a white whose camera response has maximum 0.
- **What a nan matrix does downstream.** The source raises no exception at
  the nan itself, so callers report what the source raises later:
  - in the loop, `solve` of a nan matrix returns nan; `nan > 0` is false, so
    `xy_from_xyz` raises `NameError` (`Step`);
  - in `pcs_from_xy`, the response to D50 is nan, and so is its maximum;
    `assert max_coeff > 0.0` then raises `AssertionError` (`PcsFromXY`).
- **`ColorInfo` and `ColorSpec` are datatypes.** Nothing in the source ever
  changes them after construction: `ColorInfo` is a frozen dataclass, and
  `ColorSpec` only stores the standardized record in `__init__`.
- **Methods where the source loops.** `xy_from_camera_neutral` is a
  `method` with a `while` loop, proved equal to the recursive specification
  `Iterate`. The two operations that call it are methods too.
- **The loop is specified over any pass function.** `Iterate` and the
  sequence of estimates `EstimateAfter` take the pass as a function value;
  `PassOf` supplies the solver's own pass `Step`. The lemmas about
  convergence, giving up and failure therefore hold for every camera
  neutral and every calibration.
- **The solver keeps the `NameError`.** One pass of the loop uses
  `xy_from_xyz` as written (`XyFromXyzAsWritten`), so a solved XYZ with sum
  <= 0 fails the whole loop with `NameError`, as the code does. The
  corrected `XyFromXyz` carries the round-trip lemmas.
- **Matrix contracts live in lemmas.** Functions whose results are large
  matrix polynomials (`CameraFromXyz`, `CameraFromPcs`, `NormalizedInverse`,
  `LinearSrgbFromXY`) keep thin contracts. Their properties are stated in
  lemmas over arbitrary matrices, e.g. `CameraFromXyzBranches` and
  `NormalizedInverseMapsWhite`.

## Model

| member | source | states |
|---|---|---|
| LinAlg.Inverse | color_spec.py:115 | `np.linalg.inv`: no inverse exactly when the determinant is 0; otherwise the result is a two-sided inverse (a @ r == r @ a == I) |
| LinAlg.Solve | color_spec.py:68 | `np.linalg.solve`: fails exactly when the determinant is 0; otherwise the result x satisfies a @ x == b |
| LinAlg.Max | color_spec.py:19 | `max()` of a vector is at least every component and equals one of them |
| LinAlg.MaxScale | color_spec.py:106-111 | scaling a vector by k > 0 scales its maximum by k |
| LinAlg.InverseUndoes | color_spec.py:115 | the inverse of a non-singular matrix undoes it on every vector |
| LinAlg.SolveUnique | color_spec.py:68 | for a non-singular matrix the solve recovers the vector that produced the right-hand side |
| LinAlg.ConjugateByInverse | color_utils.py:33-34 | for inv(B) @ D @ B, applying B to the image of v gives D applied to B v |
| ColorUtils.TempFromXY | color_utils.py:8-10 | McCamy's cubic; on the line x = 0.3320 (n = 0) the temperature is the constant 5517 |
| ColorUtils.CctCubicIncreasing | color_utils.py:4-10 | the cubic is strictly increasing for n >= -1, which covers illuminant A through D75 |
| ColorUtils.StandardIlluminantTemperatures | color_utils.py:90-107 | A, D50, D65 and D75 map to about 2856 K, 4995 K, 6508 K and 7513 K, in that order |
| ColorUtils.D50XY | color_utils.py:90-91 | the D50 chromaticity (0.3457, 0.3585), the PCS white; StandardIlluminantTemperatures places it at about 4995 K |
| ColorUtils.D65XY | color_utils.py:98-99 | the D65 chromaticity (0.3127, 0.3290); StandardIlluminantTemperatures places it at about 6508 K |
| ColorUtils.D75XY | color_utils.py:102-103 | the D75 chromaticity (0.2990, 0.3149); StandardIlluminantTemperatures places it at about 7513 K |
| ColorUtils.StandardAXY | color_utils.py:106-107 | the illuminant A chromaticity (0.4476, 0.4074); StandardIlluminantTemperatures places it at about 2856 K |
| ColorUtils.D55XY | color_utils.py:94-95 | `d55_xy` as written: (0.3127, 0.3290); its properties are D55AsWrittenIsD65 (see Findings) |
| ColorUtils.D55XYIntended | color_utils.py:94-95 | the CIE D55 chromaticity (0.3324, 0.3474); its properties are D55IntendedTemperature (see Findings) |
| ColorUtils.D55AsWrittenIsD65 | color_utils.py:94-99 | `d55_xy` as written equals `d65_xy` and has a temperature above 6500 K |
| ColorUtils.D55IntendedTemperature | color_utils.py:94-95 | the CIE D55 chromaticity lies at about 5500 K, between D50 and D65 |
| ColorUtils.SrgbFromXyzD65 | color_utils.py:76-79 | the source's sRGB <- XYZ D65 constants; LinearSrgbFromXyzD50 composes it after the adaptation |
| ColorUtils.Bradford | color_utils.py:84-86 | the linearized Bradford constants; BradfordInverse is its proved two-sided inverse |
| ColorUtils.BradfordInverse | color_utils.py:33 | the inverse of the Bradford matrix, a two-sided inverse |
| ColorUtils.Clip | color_utils.py:46 | `np.clip` lands in [lo, hi] and leaves values already there unchanged |
| ColorUtils.ClampXY | color_utils.py:41-50 | the working chromaticity is positive with sum <= max; an oversized sum is rescaled along its own ray to exactly max; otherwise it is the clipped value |
| ColorUtils.XyzFromXY | color_utils.py:40-52 | the tristimulus value has Y == 1 and X > 0, and Z > 0 for the default range |
| ColorUtils.XyFromXyz | color_utils.py:55-63 | for a positive sum, x and y times the sum give back X and Y; otherwise the documented fallback D50 |
| ColorUtils.XyFromXyzAsWritten | color_utils.py:58-63 | the code as written: the same quotient for a positive sum, `NameError` otherwise |
| ColorUtils.XyFromXyzFallbackDiscrepancy | color_utils.py:57-63 | black XYZ raises `NameError` as written where D50 is documented |
| ColorUtils.XyFromXyzScaleInvariant | color_utils.py:58-60 | chromaticity does not change when XYZ is scaled by a positive factor |
| ColorUtils.ChromaticityRoundTrip | color_utils.py:52 | for y > 0 the XYZ of (x, y) has a positive sum, and dividing it back out gives x and y |
| ColorUtils.XyzRoundTrip | color_utils.py:37-63 | xy -> XYZ -> xy returns the clamped working chromaticity |
| ColorUtils.XyzRoundTripInRange | color_utils.py:37-63 | a chromaticity already in range comes back unchanged |
| ColorUtils.ClipNonNegative | color_utils.py:23-25 | every component is non-negative; negative cone responses become exactly 0, non-negative ones are kept |
| ColorUtils.ConeResponse | color_utils.py:20-25 | a white's clipped cone response is non-negative |
| ColorUtils.ChannelScale | color_utils.py:27-31 | the ratio lies in [min_scale, max_scale]; when unclipped it is exactly w2 / (w1 + eps) |
| ColorUtils.AdaptationScales | color_utils.py:20-31 | every per-channel scale lies in [min_scale, max_scale] |
| ColorUtils.MapColorsBetweenWhitePoints | color_utils.py:15-34 | inv(Bradford) @ diag(a) @ Bradford with the clipped ratios a; what it does is MapColorsConeSpace |
| ColorUtils.MapColorsDefault | color_utils.py:15-19 | map_colors_between_white_points with its defaults eps = 1e-12, min_scale = 0.1, max_scale = 10; MapColorsConeSpace and AdaptationScales state what it does |
| ColorUtils.MapColorsConeSpace | color_utils.py:13-34 | in cone space the adaptation matrix is exactly the per-channel scaling by the clipped ratios |
| ColorUtils.LinearSrgbFromXyzD50 | color_utils.py:67-72 | sRGB <- XYZ D65 after the D50 -> D65 adaptation; what the adaptation does is MapColorsConeSpace |
| ColorInfo.ColorInfo.Illuminant1Temperature | color_info.py:25-26 | McCamy's temperature of the first illuminant; Standardized orders it against the second |
| ColorInfo.ColorInfo.Illuminant2Temperature | color_info.py:28-29 | McCamy's temperature of the second illuminant; Standardized orders it against the first |
| ColorInfo.ColorInfo.CalibratedColorMatrix1 | color_info.py:31-33 | diag(balance) @ calib_1 @ matrix_1; its properties are StandardizedSwapsCalibrated and CalibratedWithUnitCalibration |
| ColorInfo.ColorInfo.CalibratedColorMatrix2 | color_info.py:35-37 | diag(balance) @ calib_2 @ matrix_2; its properties are StandardizedSwapsCalibrated and CalibratedWithUnitCalibration |
| ColorInfo.DefaultColorInfo | color_info.py:8-23 | the dataclass defaults have defined illuminant temperatures |
| ColorInfo.ColorInfo.Standardized | color_info.py:39-54 | the result has temp1 <= temp2 (the min and max of the originals); the record itself if already ordered; otherwise matrices, illuminants and calibrations swapped pairwise with the balance kept |
| ColorInfo.StandardizedIdempotent | color_info.py:41-54 | standardizing twice equals standardizing once |
| ColorInfo.StandardizedSwapsCalibrated | color_info.py:31-54 | a swap also exchanges the two calibrated colour matrices |
| ColorInfo.CalibratedWithUnitCalibration | color_info.py:31-37 | with unit balance and identity calibration the calibrated matrix is the colour matrix |
| ColorInfo.DefaultColorInfoIsSwapped | color_info.py:14-15 | the defaults list D65 before A, so standardizing them puts A first |
| ColorSpec.NewColorSpec | color_spec.py:8-9 | the stored record is standardized (a fixed point of `standardized`), its temperatures are the min and max of the given ones, and an ordered record is kept as is |
| ColorSpec.MiredWeight | color_spec.py:36-38 | (1/wt - 1/temp2) / (1/temp1 - 1/temp2); MiredWeightEndpoints, MiredWeightInUnitInterval and WeightStrictlyDecreasing state its properties |
| ColorSpec.MiredWeightEndpoints | color_spec.py:36-38 | the mired weight is 1 at temp1 and 0 at temp2 |
| ColorSpec.MiredWeightInUnitInterval | color_spec.py:36-38 | strictly between positive temp1 and temp2 the weight lies strictly in (0, 1) |
| ColorSpec.InterpolationWeight | color_spec.py:30-38 | g is 1 at or below temp1 and 0 at or above temp2; in between, nan exactly when temp2 == 0, -inf exactly when the white temperature is 0, 0 when temp1 == 0, and for positive temperatures the mired weight, in (0, 1) |
| ColorSpec.WeightStrictlyDecreasing | color_spec.py:35-38 | within (temp1, temp2) the weight strictly decreases as the white gets hotter |
| ColorSpec.WeightNonIncreasing | color_spec.py:30-38 | over all white temperatures the weight never increases |
| ColorSpec.Lerp | color_spec.py:46-47 | g * x + (1 - g) * y for one entry; LerpInRange states it lies between x and y for g in [0, 1] |
| ColorSpec.Blend | color_spec.py:46-47 | g * cal1 + (1 - g) * cal2 entry by entry; BlendBetween states it lies entrywise between them |
| ColorSpec.LerpInRange | color_spec.py:46-47 | a convex combination of two reals lies between them |
| ColorSpec.BlendBetween | color_spec.py:46-47 | a blend with weight in [0, 1] lies entrywise between the two matrices |
| ColorSpec.CameraFromXyz | color_spec.py:24-49 | on McCamy's pole it fails exactly for x <= 0.3320 (nan temperature); every failure is `NonFinite` |
| ColorSpec.CameraFromXyzOnPole | color_spec.py:24-44 | on the pole, x > 0.3320 (temperature +inf) picks the second calibrated matrix; otherwise `NonFinite` |
| ColorSpec.CameraFromXyzBranches | color_spec.py:24-49 | off the pole: at or below temp1 the first calibrated matrix; at or above temp2 the second; strictly between with positive temp1 the mired blend with 0 < g < 1; a zero temp1 or white temperature in between gives the second matrix; a zero temp2 in between gives `NonFinite` |
| ColorSpec.CameraFromXyzBetween | color_spec.py:24-49 | every matrix returned, on the pole and for any signs of the temperatures, lies entrywise between the two calibrated matrices |
| ColorSpec.NormalizeByMax | color_spec.py:18-19 | fails exactly when the maximum is 0; the result times the maximum is the input; a positive maximum normalizes to largest component exactly 1 |
| ColorSpec.WhiteXyz | color_spec.py:16 | the white's XYZ has Y == 1 and positive X and Z |
| ColorSpec.CameraNeutralFor | color_spec.py:15-19 | the camera response to the white, divided by its maximum: the largest component is 1 when the maximum is positive, and it fails exactly when the maximum is 0 |
| ColorSpec.L1 | color_spec.py:73 | the convergence distance is non-negative and 0 exactly for equal estimates |
| ColorSpec.Midpoint | color_spec.py:79-83 | the average of the last two estimates is equally far from both |
| ColorSpec.Step | color_spec.py:64-71 | one pass: a nan camera_from_xyz gives `NameError` (nan solve, then `nan > 0` is false); a singular matrix is `LinAlgError`; otherwise some XYZ the matrix maps to the neutral gives the result, its chromaticity for a positive sum and `NameError` for a sum <= 0 |
| ColorSpec.StepOnBlackNeutral | color_spec.py:64-71 | with a non-singular matrix, the black neutral solves to XYZ 0 and the pass raises `NameError` |
| ColorSpec.PassOf | color_spec.py:64-71 | the pass `Step` as a function of the previous estimate; the loop lemmas below hold for it |
| ColorSpec.Iterate | color_spec.py:61-87 | the loop as a recursive function; its meaning is IterateConverged, IterateGaveUp and IterateFailed |
| ColorSpec.XyFromCameraNeutral | color_spec.py:56-87 | the loop computes `Iterate` from D50; with max_passes <= 0 it returns D50 untouched; it performs at most max_passes solves (ghost counter) |
| ColorSpec.ConvergedFromPass | color_spec.py:63-85 | from pass p on, the loop converges to w exactly when some later pass is the first to come within eps and produces w |
| ColorSpec.GaveUpFromPass | color_spec.py:63-85 | from pass p on, the loop gives up exactly when every remaining pass misses eps, and returns the midpoint of the final two estimates |
| ColorSpec.FailedFromPass | color_spec.py:63-85 | from pass p on, the loop fails with e exactly when a pass fails with e after every earlier pass missed eps |
| ColorSpec.IterateConverged | color_spec.py:61-87 | with n > 0 passes: returns w converged exactly when some pass k < n has estimate k + 1 == w within eps of estimate k and every pass j < k missed eps |
| ColorSpec.IterateGaveUp | color_spec.py:61-87 | with n > 0 passes: gives up exactly when all n passes miss eps, and then returns the midpoint of estimates n - 1 and n |
| ColorSpec.IterateFailed | color_spec.py:61-87 | with n > 0 passes: fails with e exactly when some pass k < n fails with e and every earlier pass missed eps |
| ColorSpec.NeutralFixedPoint | color_spec.py:15-19 | for any in-range white w with a non-singular matrix and a positive camera response, w is a fixed point of the pass for w's own camera neutral, at any temperature |
| ColorSpec.SolveScaledWhite | color_spec.py:64-71 | solving against a positive multiple of m @ XYZ(w) gives that multiple of XYZ(w), whose chromaticity is w |
| ColorSpec.IterateAtFixedPoint | color_spec.py:63-74 | once the estimate is a fixed point of the pass, with passes left, the loop returns it converged |
| ColorSpec.IterateReachesFixedPoint | color_spec.py:61-87 | if estimate k < n is a fixed point and no earlier pass came within eps, the loop returns it converged |
| ColorSpec.CameraNeutralRoundTrip | color_spec.py:15-87 | corollary: when D50 and an in-range white w get the same non-singular camera matrix, the loop recovers exactly w from w's camera neutral within two passes |
| ColorSpec.D50Xyz | color_spec.py:104 | xyz_from_xy(d50_xy()), the PCS white in XYZ; WhiteXyz states Y == 1 with positive X and Z |
| ColorSpec.CameraFromPcs | color_spec.py:93-100 | camera_from_xyz(white) @ map_colors(D50 -> white); its properties are NormalizedInverseMapsWhite and RenderNormalizedWhite, proved for every matrix |
| ColorSpec.NormalizedInverse | color_spec.py:102-115 | the scale and inversion of pcs_from_xy; what it returns is NormalizedInverseMapsWhite |
| ColorSpec.NormalizedInverseMapsWhite | color_spec.py:102-115 | the assert fails exactly when max(camera D50) <= 0; a singular scaled matrix is `LinAlgError`; otherwise the result inverts the scaled matrix and maps the normalized camera white (max 1) back to the PCS white |
| ColorSpec.NormalizedWhiteMapsBack | color_spec.py:106-115 | the normalized camera white has maximum exactly 1 and the result maps it back to the PCS white |
| ColorSpec.RenderNormalizedWhite | color_spec.py:124-127 | any output matrix after the PCS transform renders the normalized camera white as it renders the PCS white |
| ColorSpec.PcsFromXY | color_spec.py:91-115 | the normalized inverse of camera_from_xyz @ map_colors(D50 -> white) on D50's XYZ, and `AssertionError` for a nan camera_from_xyz; its properties are PcsFromXYFailure and NormalizedInverseMapsWhite |
| ColorSpec.PcsFromXYFailure | color_spec.py:91-108 | wherever camera_from_xyz is nan, max_coeff is nan and pcs_from_xy fails its assert with `AssertionError` |
| ColorSpec.PcsOfEstimate | color_spec.py:119-122 | `pcs_from_xy` of a found white, a loop failure passed on unchanged |
| ColorSpec.PcsOfNeutral | color_spec.py:119-122 | `pcs_from_xy` of the white the loop finds (30 passes, eps 1e-6), or the loop's failure; the loop lemmas above say which white that is |
| ColorSpec.PcsFromCameraNeutral | color_spec.py:119-122 | returns PcsOfNeutral: the loop, then `pcs_from_xy` of its white, a loop failure passed on |
| ColorSpec.LinearSrgbFromPcs | color_spec.py:127 | linear_srgb_from_xyz_d50() @ pcs, a failure passed on |
| ColorSpec.LinearSrgbFromXY | color_spec.py:125-127 | linear_srgb_from_xyz_d50() @ pcs_from_xy(white); RenderNormalizedWhite states how it renders the camera white |
| ColorSpec.LinearSrgbFromCamera | color_spec.py:130-133 | returns LinearSrgbFromPcs of PcsOfNeutral: sRGB after the PCS transform of the white the loop finds, or the loop's failure |

## Left out

- Floating point: all arithmetic is exact. Rounding is not modelled. The
  infinities that still give a finite matrix are followed (`Weight`). A nan
  matrix or vector is `Err(NonFinite)` rather than a value, and where the
  source raises further on because of it (`NameError` in the loop,
  `AssertionError` in `pcs_from_xy`) the model returns that exception.
- Illuminants on McCamy's pole: `ColorSpec.NewColorSpec` requires both
  illuminant temperatures to be defined (neither y on the pole). In float64
  an illuminant on the pole with x > 0.3320 has temperature +inf, which
  `standardized`'s `<=` orders normally; with x <= 0.3320 the temperature is
  nan and the comparison is simply false. Neither case is modelled for the
  calibration illuminants.
- `ColorInfo.ColorInfo.Standardized` and the temperature functions require a
  y off McCamy's pole for the same reason.
- The diagnostic `print` in `xy_from_camera_neutral` is the `gaveUp` flag of
  the result, not output.
- Singularity means a determinant of exactly 0 in exact arithmetic. numpy's
  `inv` and `solve` raise `LinAlgError` only when float64 LU elimination
  meets an exactly zero pivot, with no condition-number test. Rounding can
  make that differ from an exact zero determinant in both directions, and
  an ill-conditioned matrix is never rejected; neither is modelled.
- `CameraFromPcs`, `NormalizedInverse`, `PcsFromXY`, `LinearSrgbFromPcs` and
  `LinearSrgbFromXY` carry no contracts of their own. Their properties are
  the lemmas `NormalizedInverseMapsWhite`, `RenderNormalizedWhite` and
  `PcsFromXYFailure`, proved for every matrix.
- `ColorSpec.CameraFromXyz`'s contract states its failures and the pole.
  Its branch behaviour is the lemma `CameraFromXyzBranches`.
- In-place updates: `temp *= scale` in `xyz_from_xy` works on a fresh copy
  made by `clip`. Caller arrays are values here, so the caller's array
  staying unchanged holds by construction.
- `map_colors_between_white_points` does not map the source white exactly
  onto the target white, because of `eps`. No such exact property is
  claimed; `MapColorsConeSpace` states what the matrix does.
- Forward matrices and the full DNG light-source table are TODOs in the
  source, so they are not modelled.
- The test script `color_spec_test.py` and its expected output are not
  modelled.

## Findings

| source | as written | input that shows it | evidently intended | confidence | as-written member | corrected member |
|---|---|---|---|---|---|---|
| color_utils.py:63 | the fallback calls `d50_XYCoord()`, which is defined nowhere, so it raises `NameError` | XYZ = (0, 0, 0) | return the PCS white `d50_xy()`, as the comment on lines 57 and 62 says | high; not executed | ColorUtils.XyFromXyzAsWritten, ColorUtils.XyFromXyzFallbackDiscrepancy, ColorSpec.StepOnBlackNeutral | ColorUtils.XyFromXyz |
| color_utils.py:94-95 | `d55_xy()` returns (0.3127, 0.3290), the D65 chromaticity, about 6508 K | `d55_xy()` | the CIE D55 chromaticity (0.3324, 0.3474), about 5500 K | high; not executed | ColorUtils.D55XY, ColorUtils.D55AsWrittenIsD65 | ColorUtils.D55XYIntended, ColorUtils.D55IntendedTemperature |
