# SolutioLabs drivers: 1D dose comparison and CT number ranges, in Dafny

This project models the computations written inline in two driver programs
of the SolutioLabs repository, and proves properties of them.

- `gamma_1d.dfy` (module `Gamma1D`) models the 1D dose-comparison driver.
  It reproduces the experiment of Low et al. (Med Phys 1998;25(5):656-661).
  The model covers:
  - the 256-point x axis over a 20 cm profile;
  - the reference and test penumbra profiles, built from a two-term
    error-function model (the test profile has its edge moved out by 0.25 cm
    and is scaled by 1.025);
  - the pointwise dose difference;
  - the resampling of the reference profile at a fixed 0.001 cm step;
  - the distance-to-agreement (DTA) scan, which uses a 0.001 dose tolerance
    and writes a 10.0 sentinel when no point matches.
- `ct_hu.dfy` (module `CtHu`) models the CT number driver. It covers:
  - the mean energy of four x-ray spectra, as a weighted sum over 151 energy
    bins;
  - the Hounsfield unit formula `round(1000 (mu - mu_water) / (mu_water - mu_air))`;
  - the HU range of each material over the four spectra, as a running
    minimum and maximum.

C++ `double` is modelled as exact `real`, and `fabs` and C `round` are
written out. The C library's `erf` and the SolutioCpp routines
`LinearInterpolation` and the NIST linear-attenuation lookups are
function-valued parameters. The model assumes nothing about them except where
a contract says so. `CtNumberRanges` requires water and air to attenuate
differently at each mean energy. It also requires table rows 0 and 1 to
attenuate exactly like the reference air and water. The TASMIP spectra are
inputs.

The driver has no checks for unequal profile lengths, an empty reference
profile or a bad resampling step. It indexes both profiles up to the sample
count and reads `ref_profile[0]` and `ref_profile.back()`, and its step is
the constant 0.001. So the model takes equal lengths (for the dose difference
and the DTA) and a non-empty reference (for the resampling) as preconditions.
The CT driver likewise never checks that water and air attenuate differently
at a mean energy, so the model requires it wherever it divides by the
difference.

## Model

| member | source | states |
|---|---|---|
| Gamma1D.Abs | Source/gamma_1d.cpp:120 | `fabs`: the result is non-negative and is either x or -x |
| Gamma1D.GridPoint | Source/gamma_1d.cpp:95 | Position of sample k, `-w/2 + w*(k/n)`. It has no contract of its own; `GridPointFirst`, `GridPointLast`, `GridPointIncreasing` and `GridPointBounds` carry its properties |
| Gamma1D.MakeXAxis | Source/gamma_1d.cpp:91-96 | The x axis has n entries, entry k is `-w/2 + w*(k/n)`, it starts at -w/2 and ends at w/2 - w/n; for w > 0 it is strictly increasing and lies in [-w/2, w/2) |
| Gamma1D.GridPointIncreasing | Source/gamma_1d.cpp:95 | Grid positions strictly increase with the sample index |
| Gamma1D.GridPointBounds | Source/gamma_1d.cpp:95 | Every grid position lies between -w/2 and w/2 - w/n |
| Gamma1D.GridPointLast | Source/gamma_1d.cpp:95 | The last grid position is w/2 - w/n, so w/2 itself is never sampled |
| Gamma1D.EdgeDose | Source/gamma_1d.cpp:105 | The two-term erf model `t + (1-t)(a*(erf(b1 u)+1)/2 + (1-a)*(erf(b2 u)+1)/2)` at a distance u inside the field edge. It has no contract of its own; `EdgeDoseBounds` and `PenumbraDoseBounds` carry its properties |
| Gamma1D.EdgeDoseBounds | Source/gamma_1d.cpp:105 | For any erf bounded by 1, with 0 <= a, t <= 1, the model lies in [t, 1] at every distance from the edge |
| Gamma1D.PenumbraDose | Source/gamma_1d.cpp:105 | The reference dose at x for a field edge at `edge`, reading x only through `fabs`. It has no contract of its own; `PenumbraSymmetric` and `PenumbraDoseBounds` carry its properties |
| Gamma1D.TestDose | Source/gamma_1d.cpp:108 | The test dose: eta times the penumbra model with its edge at x0 + shift. It has no contract of its own; `TestDoseUnshifted` and `UnshiftedProfiles` carry its properties |
| Gamma1D.PenumbraSymmetric | Source/gamma_1d.cpp:105 | The penumbra dose depends on x only through abs(x): dose(x) == dose(-x) |
| Gamma1D.PenumbraDoseBounds | Source/gamma_1d.cpp:105 | For any erf bounded by 1, with 0 <= a, t <= 1, the dose lies in [t, 1] |
| Gamma1D.TestDoseUnshifted | Source/gamma_1d.cpp:105-108 | With no shift the test dose is eta times the reference dose, and equals it when eta is 1 |
| Gamma1D.MakeProfiles | Source/gamma_1d.cpp:98-110 | Both profiles have one entry per position and share the x-axis positions; the reference dose is the penumbra model at edge x0; the test dose is eta times the model at edge x0+shift; with shift 0 the test dose is eta times the reference, and with eta 1 as well the two profiles are equal |
| Gamma1D.UnshiftedProfiles | Source/gamma_1d.cpp:100-110 | Profiles built with no shift: each test dose is eta times its reference dose, and with eta 1 the test and reference profiles are identical |
| Gamma1D.AbsDoseDiffs | Source/gamma_1d.cpp:120 | One entry per sample, each non-negative; `AbsDoseDiffsSymmetric` and `AbsDoseDiffZeroIff` prove it symmetric in the two profiles and zero exactly where the doses agree |
| Gamma1D.DoseDifference | Source/gamma_1d.cpp:116-121 | One entry per sample, each `abs(test - ref)`, non-negative, and zero exactly when the two doses are equal |
| Gamma1D.AbsDoseDiffsSymmetric | Source/gamma_1d.cpp:120 | Swapping test and reference profiles leaves the dose differences unchanged |
| Gamma1D.AbsDoseDiffZeroIff | Source/gamma_1d.cpp:120 | A dose difference is zero if and only if the two doses are equal |
| Gamma1D.Resample | Source/gamma_1d.cpp:124-137 | The first resampled point is exactly ref[0]; point k is at first + k*0.001; every later dose is the interpolation at its position; there are at least two points; every point from the second up to the one before the last is below last - 0.001, and the last is at or above it; when last - first > 0.001 every position is below the last original position, so the final original sample is never included |
| Gamma1D.Agrees | Source/gamma_1d.cpp:147-148 | The dose test `fabs(test - resampled) <= 0.001`. `ScanForAgreement` and `IsMinMatchDistance` are stated in terms of it |
| Gamma1D.ScanForAgreement | Source/gamma_1d.cpp:144-157 | `found` is raised exactly when some resampled point is within 0.001 in dose; then `min_dist` is the smallest distance to such a point, attained by one and no larger than any |
| Gamma1D.DistanceToAgreement | Source/gamma_1d.cpp:139-160 | One DTA per test sample, in sample order; with a dose match it is the minimum distance over matching resampled points; with none it is 10.0; always non-negative |
| Gamma1D.MinMatchDistanceOrderIndependent | Source/gamma_1d.cpp:145-157 | Two scans over sequences holding the same points find the same minimum, whatever the order or repeats |
| Gamma1D.MinMatchDistanceBounds | Source/gamma_1d.cpp:150-155 | The DTA is non-negative and no larger than the distance to any dose-matching point |
| Gamma1D.SentinelIsAlsoADistance | Source/gamma_1d.cpp:153-159 | A genuine match at distance exactly 10.0 also yields 10.0, so 10.0 does not by itself mean "no match" |
| Gamma1D.Min | Source/gamma_1d.cpp:155 | `std::min`: the result is no larger than either argument and is one of them |
| Gamma1D.CompareProfiles | Source/gamma_1d.cpp:64-160 | With the driver's inputs: 256 samples from -10.0 to 9.921875 shared by both profiles; every reference dose is the penumbra model with its edge at x0 = 5.0; every test dose is 1.025 times the model with its edge at 5.25; the absolute dose differences; resampled point k at -10.0 + k*0.001, with ref[0] first and interpolated doses after it, stopping at the first point at or past 9.921875 - 0.001, all in [-10.0, 9.921875); and the DTA characterisation for every sample |
| CtHu.MeanEnergies | Source/ct_hu.cpp:61-69 | Each of the four mean energies is the sum over the 151 bins of weight times bin index |
| CtHu.BinMoment | Source/ct_hu.cpp:65-68 | One bin's contribution `kVp[n]*n`, its weight times its energy index. `WeightedSum` adds these up |
| CtHu.WeightedSum | Source/ct_hu.cpp:63-69 | Sum over the first n bins of weight times bin index. It has no contract of its own; `WeightedSumOfLine`, `WeightedSumNonNegative` and `WeightedSumScales` carry its properties |
| CtHu.WeightedSumOfLine | Source/ct_hu.cpp:63-69 | A spectrum with all its weight 1 in bin e has mean energy e |
| CtHu.WeightedSumNonNegative | Source/ct_hu.cpp:63-69 | A spectrum with no negative weights has a non-negative mean energy |
| CtHu.WeightedSumScales | Source/ct_hu.cpp:62-69 | No normalisation is applied: scaling the spectrum by c scales the mean energy by c |
| CtHu.Round | Source/ct_hu.cpp:105 | C `round`: the result is within 1/2 of x, and halfway cases go away from zero |
| CtHu.RoundMonotone | Source/ct_hu.cpp:105 | Rounding preserves order |
| CtHu.Hu | Source/ct_hu.cpp:105-109 | The HU formula `round(1000 (mu - mu_water) / (mu_water - mu_air))`, defined only when water and air attenuate differently. It has no contract of its own; `HuOfReferenceMaterials` and `HuMonotone` carry its properties |
| CtHu.HuOfReferenceMaterials | Source/ct_hu.cpp:105-109 | When water and air attenuate differently, water is 0 HU and air is -1000 HU |
| CtHu.HuMonotone | Source/ct_hu.cpp:105-109 | When water attenuates more than air, a larger attenuation never gives a smaller HU |
| CtHu.HuValues | Source/ct_hu.cpp:103-109 | One HU value per spectrum, in spectrum order |
| CtHu.SeqMin | Source/ct_hu.cpp:110-118 | The running minimum: the first value, then lowered by each smaller value. It has no contract of its own; `SeqMinIsMinimum` proves it is the attained minimum |
| CtHu.SeqMax | Source/ct_hu.cpp:110-118 | The running maximum: the first value, then raised by each larger value. It has no contract of its own; `SeqMaxIsMaximum` proves it is the attained maximum |
| CtHu.SeqMinIsMinimum | Source/ct_hu.cpp:110-118 | The running minimum is at most every element and equals one of them |
| CtHu.SeqMaxIsMaximum | Source/ct_hu.cpp:110-118 | The running maximum is at least every element and equals one of them |
| CtHu.RangeOfOne | Source/ct_hu.cpp:110-113 | After the first spectrum both bounds equal that spectrum's HU |
| CtHu.RangeOrdered | Source/ct_hu.cpp:110-118 | The lower bound never exceeds the upper bound |
| CtHu.RangeOrderIndependent | Source/ct_hu.cpp:103-118 | The range depends only on the set of HU values, not on the order of the spectra |
| CtHu.HuRange | Source/ct_hu.cpp:103-119 | One material's bounds are the minimum and maximum of its four HU values, and the lower is at most the upper |
| CtHu.ReferenceMaterialRanges | Source/ct_hu.cpp:101-119 | Whatever the spectra, water's range is [0, 0] and air's is [-1000, -1000] |
| CtHu.SameAttenuationSameValues | Source/ct_hu.cpp:78-90 | Two materials that attenuate alike at every energy give the same HU values; this is how the table's Air and Water rows match the reference `NistAir` and `NistWater` |
| CtHu.HuRanges | Source/ct_hu.cpp:97-122 | One ordered (min, max) row per material, in material order, each the extremes of that material's HU values |
| CtHu.CtNumberRanges | Source/ct_hu.cpp:61-122 | The four mean energies, then one ordered HU range per material of the nine-entry table, each the minimum and maximum of that material's HU values; when rows 0 and 1 attenuate like the reference air and water, as they are built from the same data, their ranges are exactly (-1000, -1000) and (0, 0) |

## Left out

- The gamma index itself, `solutio::CalcGammaIndex` and its settings (Source/gamma_1d.cpp:162-194): the library routine is not part of this model, so no gamma values or pass rates are modelled.
- `erf` and `solutio::LinearInterpolation` are function parameters, not implementations.
- `solutio::Tasmip` (Source/ct_hu.cpp:56-59) is not modelled: the spectra are inputs.
- `solutio::NistPad` is not modelled. Its `LinearAttenuation` is a function parameter for each material and for the reference water and air. `ForceDensity` for lung (Source/ct_hu.cpp:91) only reaches the model through that material's attenuation function. `GetDensity` and `PowerLawEffectiveZ` are used only for printing.
- All console and file output, and reading the data folder from `argv[1]`, are I/O and are left out.
- Floating point: positions, doses and energies are exact reals. In IEEE doubles, repeated `xp += 0.001` builds up rounding error. So the resampling count and boundary properties hold for the real-valued model only.
- CtHu.Round: the conversion of the rounded double to `int` assumes the value fits in an `int`; overflow is not modelled.
- CtHu.HuRanges: the `int ct_hu[9][2]` array is a sequence of (min, max) pairs built row by row. The in-place running update of each row is `HuRange`'s pair of local bounds. Writes into a two-dimensional array are not modelled.
- Gamma1D.DistanceToAgreement: states "no match gives 10.0" but not the converse. A match at distance exactly 10.0 also gives 10.0 (`SentinelIsAlsoADistance`).
- Gamma1D.DistanceToAgreement: the inner loop over the resampled points is a separate method, `ScanForAgreement`. The outer loop calls it once per test sample.
