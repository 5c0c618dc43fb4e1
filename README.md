# CHAP core components in Dafny

A Dafny model of three self-contained components of CHAP, a tool that finds
the pore through an ion channel and profiles it. All three are written
imperatively in the original C++.

- **Van der Waals radius lookup** (`vdw_radius_provider.dfy`, module
  `VdwRadius`). `VdwRadiusProvider` holds a default radius and a table of
  (atom name, residue name, radius) records. The table is loaded from the
  `vdwradii` array of a JSON document. A radius is resolved through a fixed
  chain:
  1. the first record with the atom name and the exact residue name;
  2. then the first record with the atom name and the generic residue `"???"`;
  3. then the same two steps with the upper-cased element symbol, but only
     when no record has the atom name at all;
  4. then the default radius, which must have been set to a non-negative
     value.
- **Histogram density estimation** (`histogram_density.dfy`, module
  `HistogramDensity`). `HistogramDensityEstimator` holds a bin width. It
  sorts the samples in place and lays equidistant break points from 1.5 bin
  widths below the smallest sample to past 1.5 bin widths above the largest.
  It counts the samples per half-open bin `(b[i], b[i+1]]` and normalises the
  counts to a density.
- **PDB per-atom annotation** (`pdb_io.dfy`, module `PdbIo`).
  `PdbStructure.SetPoreFacing` creates the PDB records when the structure has
  none. It then overwrites each atom's occupancy and B-factor with its
  residue's mean pore-lining and pore-facing values.

`wrappers.dfy` holds `Option`, `Result` and `Outcome`. An operation that throws
in C++ returns `Failure`/`Fail` here. Object state is left exactly as the C++
leaves it at the throw.

Each class method is proved against a specification function of the module
(`Lookup`, `LoadedTable`, `IsBreaks`, `ScanCounts`, `HistogramOf`,
`PoreFacingRecords`). The lemmas beside them prove what the source promises
about those functions.

Where the code and its own comments disagree, the model follows the code.
`createMidpoints` is documented (lines 158-160 and 170 of
`histogram_density_estimation.cpp`) as shifting the breaks by half a bin
width. The code adds a full bin width, so each "midpoint" is the bin's upper
break point (`MidpointsAreUpperBreaks`). The model keeps the full-width shift.

## Model

| member | source | states |
|---|---|---|
| `VdwRadius.VdwRadiusProvider.constructor` | src/path-finding/vdw_radius_provider.cpp:11-20 | a fresh provider has an empty table and default radius -1, i.e. no default |
| `VdwRadius.VdwRadiusProvider.SetDefaultVdwRadius` | src/path-finding/vdw_radius_provider.cpp:42-53 | a value >= 0 becomes the default; a negative value fails and leaves the previous default unchanged |
| `VdwRadius.VdwRadiusProvider.LookupTableFromJson` | src/path-finding/vdw_radius_provider.cpp:59-107 | a non-object root, or a missing or non-array `vdwradii`, fails with the table untouched; otherwise the table becomes the records of the entries before the first malformed one, in input order, and the call fails with that entry's first missing field, or succeeds when there is none |
| `VdwRadius.FirstBadEntry` | src/path-finding/vdw_radius_provider.cpp:82-96 | the index where loading stops: every earlier entry has a string `atomname`, a string `resname` and a numeric `vdwr`, and the entry at the index (if any) lacks one of them |
| `VdwRadius.LoadTableEntries` | src/path-finding/vdw_radius_provider.cpp:78-106 | round trip: writing a table out as JSON entries and loading them gives back the same table |
| `VdwRadius.AtomNameMatches` | src/path-finding/vdw_radius_provider.cpp:239-255 | there are no more matches than records, and the result is empty iff no record has the atom name |
| `VdwRadius.AtomNameMatchesMembers` | src/path-finding/vdw_radius_provider.cpp:239-255 | the matches are exactly the table records with the atom name: each match is such a record, and each such record is a match |
| `VdwRadius.AtomNameMatchesAppend` | src/path-finding/vdw_radius_provider.cpp:245-251 | appending a record to the table appends it to the matches exactly when its atom name matches, so table order is kept |
| `VdwRadius.VdwRadiusProvider.MatchAtmName` | src/path-finding/vdw_radius_provider.cpp:239-255 | the scanning loop returns exactly the filtered records, in table order |
| `VdwRadius.FirstResNameMatch` | src/path-finding/vdw_radius_provider.cpp:266-283 | the position of the first record with the residue name; no earlier record has it; the end position when none has it |
| `VdwRadius.VdwRadiusProvider.MatchResName` | src/path-finding/vdw_radius_provider.cpp:266-283 | the scanning loop returns the first position with the residue name, or the end position when there is none |
| `VdwRadius.VdwRadiusProvider.ResolveResidue` | src/path-finding/vdw_radius_provider.cpp:160-185 | among matches: the exact residue's radius, else the generic `"???"` residue's radius, else the default radius |
| `VdwRadius.VdwRadiusProvider.ReturnDefaultRadius` | src/path-finding/vdw_radius_provider.cpp:292-305 | succeeds with the default exactly when it is non-negative; otherwise fails with an error naming the atom and residue |
| `VdwRadius.VdwRadiusProvider.VdwRadiusForAtom` | src/path-finding/vdw_radius_provider.cpp:149-229 | the method's chain of scans computes the lookup function `Lookup` |
| `VdwRadius.FirstResNameMatchOfMatches` | src/path-finding/vdw_radius_provider.cpp:155-162 | scanning the atom-name matches for a residue finds the first record, in table order, with both names |
| `VdwRadius.LookupPrecedence` | src/path-finding/vdw_radius_provider.cpp:149-229 | the lookup equals a direct definition over the table. Exact (atom, residue) comes first, then (atom, `"???"`), then the default. The upper-cased element symbol replaces the atom name only when no record has the atom name; a known atom name whose residues do not match goes straight to the default |
| `VdwRadius.ChainForMatches` | src/path-finding/vdw_radius_provider.cpp:155-185 | the two residue searches over the atom-name matches give the same radius as the direct search over the table for (name, residue), then (name, `"???"`) |
| `VdwRadius.LookupOrigin` | src/path-finding/vdw_radius_provider.cpp:149-229 | every radius the lookup returns is some table record's radius or the non-negative default |
| `VdwRadius.LookupFailure` | src/path-finding/vdw_radius_provider.cpp:292-305 | the lookup fails exactly when the chain finds no record and the default is negative, so a fresh provider (-1) fails every lookup that falls through; the error names the atom and residue |
| `VdwRadius.AtomRadiiAt` | src/path-finding/vdw_radius_provider.cpp:125-134 | entry i of the per-atom lookups is the lookup for the i-th mapped atom's name, residue name and element |
| `VdwRadius.MapOfEntries` | src/path-finding/vdw_radius_provider.cpp:125-134 | the map built by assigning ids to values one after another has exactly those ids as keys, and each key maps to a value assigned to it |
| `VdwRadius.RadiiMapValues` | src/path-finding/vdw_radius_provider.cpp:113-138 | when every mapped atom's lookup succeeds, the map of ids to radii has exactly the mapped ids as keys, each holding its atom's looked-up radius |
| `VdwRadius.VdwRadiusProvider.RadiusOfMappedAtom` | src/path-finding/vdw_radius_provider.cpp:127-133 | reads the i-th mapped atom's names and element from the topology and returns its lookup |
| `VdwRadius.VdwRadiusProvider.VdwRadiiForTopology` | src/path-finding/vdw_radius_provider.cpp:113-138 | succeeds iff every mapped atom's lookup succeeds; the key set is exactly the mapped ids, each mapped to its lookup result; on failure the error is the lookup error of the first mapped atom whose lookup fails, every earlier one having succeeded |
| `HistogramDensity.HistogramDensityEstimator.constructor` | src/statistics/histogram_density_estimation.cpp:11-18 | a fresh estimator has bin width 0, so `Estimate` fails until a positive width is set |
| `HistogramDensity.HistogramDensityEstimator.SetBinWidth` | src/statistics/histogram_density_estimation.cpp:106-122 | a width <= 0 fails and leaves the bin width unchanged; a positive width is stored |
| `HistogramDensity.HistogramDensityEstimator.SetParameters` | src/statistics/histogram_density_estimation.cpp:84-103 | fails when no bin width is supplied; otherwise behaves as `SetBinWidth` |
| `HistogramDensity.HistogramDensityEstimator.CreateBreaks` | src/statistics/histogram_density_estimation.cpp:125-154 | the first break is lo - 1.5w; consecutive breaks differ by w; every break but the last is <= hi + 1.5w and the last is > hi + 1.5w; in the real-number model the loop terminates because w > 0 (see Left out for floating point) |
| `HistogramDensity.BelowBoundBeforeLastStep` | src/statistics/histogram_density_estimation.cpp:147-150 | a break still at or below hi + 1.5w comes before the closed-form last step, so the loop's variant decreases |
| `HistogramDensity.BreaksAreBreaks` | src/statistics/histogram_density_estimation.cpp:135-154 | the closed form lo - 1.5w + k w, for k up to the first k past hi + 1.5w, has the break properties |
| `HistogramDensity.BreaksUnique` | src/statistics/histogram_density_estimation.cpp:135-154 | the break properties determine the breaks: any sequence with them is the closed form |
| `HistogramDensity.MidpointsAreUpperBreaks` | src/statistics/histogram_density_estimation.cpp:157-179 | there is one "midpoint" per bin, and it is the bin's upper break, half a width above the bin centre (the code adds a full width) |
| `HistogramDensity.UpperBound` | src/statistics/histogram_density_estimation.cpp:202-206 | the first position at or after the start whose sample exceeds the value: all samples before it are <= the value |
| `HistogramDensity.HistogramDensityEstimator.CountPerBin` | src/statistics/histogram_density_estimation.cpp:196-210 | the counting loop's counts are the scan counts: bin i's lower bound searched from the previous one, its upper bound from its own lower bound |
| `HistogramDensity.HistogramDensityEstimator.CalculateDensity` | src/statistics/histogram_density_estimation.cpp:182-240 | without breaks it fails (the count vector's reservation throws); otherwise it computes the scan counts and fails when they do not sum to the sample count or an end bin is non-empty; otherwise density[i] = counts[i] / N |
| `HistogramDensity.ScanCountsDifferences` | src/statistics/histogram_density_estimation.cpp:198-213 | for non-decreasing breaks, restarting each search at the previous lower bound gives the same bounds as searching from the start; so count i is the difference of the two break points' upper bounds and the counts telescope |
| `HistogramDensity.ScanCountsAt` | src/statistics/histogram_density_estimation.cpp:198-210 | for non-decreasing breaks, count i is the difference of the upper bounds of breaks i+1 and i searched from the start |
| `HistogramDensity.ScanCountsSum` | src/statistics/histogram_density_estimation.cpp:198-213 | for non-decreasing breaks, the counts sum to the number of samples between the first and the last break's upper bounds |
| `HistogramDensity.ScanCountsAreBinCounts` | src/statistics/histogram_density_estimation.cpp:182-210 | for sorted samples and non-decreasing breaks, count i is the number of samples x with breaks[i] < x <= breaks[i+1] |
| `HistogramDensity.CountsOfDataBreaks` | src/statistics/histogram_density_estimation.cpp:125-133 | with breaks built from the min and max of non-empty sorted samples, there are at least 3 breaks, the counts sum to the sample count and both end bins are empty, so the two sanity checks (lines 215-227) never fire |
| `HistogramDensity.NonDecreasingIffSorted` | src/statistics/histogram_density_estimation.cpp:182-213 | the adjacent-pairs order the equidistant breaks satisfy is the same as the all-pairs order of sorted samples |
| `HistogramDensity.SortSamples` | src/statistics/histogram_density_estimation.cpp:37-38 | the samples end up sorted and are a permutation of the input |
| `HistogramDensity.HistogramDensityEstimator.Estimate` | src/statistics/histogram_density_estimation.cpp:27-81 | a non-positive width fails before anything is touched. Otherwise the caller's samples are sorted in place (a permutation). In the real-number model the call fails iff more than 25000 midpoints would be built, and else returns the midpoints and the density scaled by 1/w |
| `HistogramDensity.HistogramShape` | src/statistics/histogram_density_estimation.cpp:63-69 | density and midpoints have equal length, one per bin |
| `HistogramDensity.HistogramBinDensity` | src/statistics/histogram_density_estimation.cpp:71-76 | the estimated density of bin i is (number of samples in (b[i], b[i+1]]) / N / w |
| `HistogramDensity.HistogramEndsEmpty` | src/statistics/histogram_density_estimation.cpp:125-133 | the first and last density values are 0 |
| `HistogramDensity.HistogramIntegratesToOne` | src/statistics/histogram_density_estimation.cpp:21-26 | the densities times the bin width sum to one: the estimate is normalised |
| `PdbIo.PdbStructure.SetPoreFacing` | src/io/pdb_io.cpp:34-83 | creates the records if absent and annotates them in place: atoms before the first fault get their residue's means (or zeros when unmeasured); the faulting atom gets only its occupancy; later atoms are untouched; the call fails iff a fault exists. Existing records keep their array |
| `PdbIo.NewRecords` | src/io/pdb_io.cpp:43-61 | returns a new array holding one default record per atom, in atom order |
| `PdbIo.AnnotateRecords` | src/io/pdb_io.cpp:64-82 | the loop over the atoms leaves the array equal to the annotated records and fails exactly at the first fault |
| `PdbIo.FreshRecordFields` | src/io/pdb_io.cpp:43-61 | a created record i is an ATOM record numbered i+1 with blank altloc, zero occupancy and B-factor, not anisotropic, and its name is taken as the first min(len, 5) characters of the atom name (the missing terminator for long names is under Left out) |
| `PdbIo.Truncate` | src/io/pdb_io.cpp:57 | the bounded copy keeps exactly the first min(len, n) characters of the name |
| `PdbIo.FirstFault` | src/io/pdb_io.cpp:64-82 | the first atom whose residue passes the pore-lining bounds check but has no pore-facing mean; no earlier atom is such an atom |
| `PdbIo.PoreFacingFaultsIff` | src/io/pdb_io.cpp:70-81 | annotation faults iff some atom's residue index is within the pore-lining means and beyond the pore-facing means |
| `PdbIo.EqualLengthsNeverFault` | src/io/pdb_io.cpp:70-81 | when there are at least as many pore-facing as pore-lining means, annotation never faults |
| `PdbIo.PoreFacingChangesOnlyOccupBfac` | src/io/pdb_io.cpp:64-82 | the number of records is unchanged, and every record differs from its original at most in occupancy and B-factor |
| `PdbIo.PoreFacingValues` | src/io/pdb_io.cpp:67-81 | without a fault: a residue index outside the pore-lining means (including a negative one) gives occupancy = B-factor = 0; otherwise occupancy is the pore-lining mean and B-factor the pore-facing mean |
| `PdbIo.PoreFacingSameResidue` | src/io/pdb_io.cpp:66-81 | without a fault, atoms sharing a residue index get identical occupancy and B-factor |

## Left out

- `src/path-finding/optimised_direction_probe_path_finder.cpp` is not part of this model. `findPath` only prints a message. The marching and optimisation bodies are commented out, and `optimToConfig` returns an uninitialised vector, so there is no behaviour to model.
- `include/trajectory-analysis/trajectory-analysis.hpp`, `include/io/wavefront_obj_io.hpp` and `include/statistics/gaussian_density_derivative.hpp` are not part of this model. They hold declarations only: the void-radius functions, the OBJ geometry helpers and the Gaussian kernels have no bodies.
- `src/trajectory-analysis/analysis_data_pdb_plot_module.cpp` is not part of this model: it formats coordinates into a file, which is I/O.
- `PdbStructure::fromTopology` and `PdbIo::write` are not modelled. They are thin wrappers over library calls that read a topology and write a file.
- Estimate: stops at the midpoints and scaled densities handed to the linear spline interpolation. The spline object itself is not modelled.
- Estimate: requires at least one sample when the bin width is positive. With none, the C++ then reads `front()` of an empty vector, which is undefined behaviour. With a non-positive width the empty input is allowed and fails like any other.
- CalculateDensity: requires at least one sample. Without samples the C++ either divides 0 by 0, producing NaN, or, with a single break, reads `front()` of an empty count vector. With no breaks at all, `breaks.size() - 1` wraps around to the largest `size_t` and `counts.reserve` throws `std::length_error` before the loop; the model returns the failure `CountsTooLong`. With exactly one break the model fails with the count-sum error, as the C++ does.
- CalculateDensity: requires sorted samples, as its documentation demands of callers.
- CreateBreaks: requires a positive bin width, which its only caller checks first. With a width w <= 0 the C++ loop never ends whenever the first break lo - 1.5w is at or below hi + 1.5w (for instance w == 0 and lo <= hi); otherwise it returns the single first break.
- CalculateDensity: the counts are C++ `int`s and their sum is converted to `int` from a floating-point accumulation. The model uses unbounded integers, so counts beyond INT_MAX, which would overflow in C++, are not modelled.
- CreateBreaks: termination, and with it Estimate's TooManyBins bound, hold in the real-number model only. In floating point (GROMACS `real` is `float` by default), when the bin width is smaller than the spacing of representable values near the data, adding the width leaves the last break unchanged and the C++ loop never ends; the 25000-bin guard runs after the loop and cannot catch this. For such inputs the model returns a small histogram instead.
- Floating-point rounding is not modelled; all arithmetic is on Dafny `real`. In particular, breaks built by repeated addition are exactly lo - 1.5w + k w here.
- SortSamples: an insertion sort stands in for `std::sort`. Both give the same result: the sorted permutation of the samples is unique.
- UpperBound: a linear first-index search stands in for `std::upper_bound`'s binary search. The two agree on sorted input.
- Estimate: the sanity checks after the count loop and on the density and midpoint lengths are proved never to fire, so the model has no error path for them. CalculateDensity, for arbitrary breaks, keeps both of its error paths.
- The JSON document is reduced to what the loader inspects. Entries of `vdwradii` are objects with string, number or other fields. A non-object entry makes the C++ library assert and is not modelled. Duplicate keys are not modelled.
- VdwRadiiForTopology: the topology is a value holding per-atom names, residue indices and element symbols, plus residue names. It requires every mapped id to be a valid atom index, because the C++ indexes raw arrays without checks.
- The error messages of the exceptions are reduced to error kinds. The not-found error keeps the atom and residue name.
- Upper-casing of the element symbol covers the ASCII letters, as the C locale's `toupper` does.
- The per-residue `SummaryStatistics` objects are replaced by their means, since `mean()` is not modelled.
- `PdbStructure`'s coordinates, box and periodic boundary type (`coords_`, `box_`, `ePBC_`, filled by `fromTopology`) are not modelled. `setPoreFacing` neither reads nor writes them.
- Fields of the PDB record other than type, atom number, altloc, atom name, occupancy, B-factor and the anisotropy flag are not modelled. Fields a newly created record leaves uninitialised are not modelled either.
- FreshRecordFields: the model takes a created record's name to be the first 5 characters of the atom name. For names of 5 or more characters the bounded copy writes no terminating NUL into the uninitialised record, so where the stored C string ends depends on uninitialised memory; that missing terminator is not modelled.
