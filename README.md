# TProfile2Poly in Dafny

A model of ROOT's `TProfile2Poly`, a two-dimensional profile histogram whose bins are
polygons, and of its bin class `TProfile2PolyBin`. Each polygon bin keeps four running sums:

- Σw
- Σw·v
- Σw²
- Σw·v²

It also caches two derived values, the average Σw·v / Σw and the error. The profile owns:

- a list of polygon bins;
- nine overflow bins, laid out as a 3×3 compass around the axis ranges;
- a super-grid of cells, each listing the polygon bins that may contain its points;
- `fEntries`;
- nine global accumulators.

It fills points, merges independently filled profiles, shows averages or errors, resets and
reads bins by a lenient public bin number.

The model has six modules:

| module | file | what it holds |
|---|---|---|
| `BinStatistics` | `bin_statistics.dfy` | A bin's state as a value, with one function per bin operation. Lemmas about fills, merges and updates (order independence, merge equals replay, the weighted mean after a merge, constant values having no spread). |
| `ProfileBin` | `profile_bin.dfy` | The class `Bin`. Its fields are updated in place, and each method is proved against a function of `BinStatistics` applied to `State()`: `Merge` against `MergeSums`, the others against the function of the same name, and `SetContent`, `ClearContent` and `SetErrorOption` against record updates. |
| `Overflow` | `overflow.dfy` | The pure index arithmetic: the compass classification, overflow slots, the `GetBin*` bin-number lookup and the clamped super-grid cell. |
| `ProfileStatistics` | `profile_statistics.dfy` | The whole profile as a value (`ProfileState`) and the value-level specification of `Fill`, `Merge`, `Reset`, `SetErrorOption` and `SetContentTo*`. Lemmas on commutativity, associativity and additivity. |
| `Profile2Poly` | `profile.dfy` | The class `Profile`, which owns the `Bin` objects. Every mutating method is proved to turn `State()` into the corresponding `ProfileStatistics` function of the old state. The read-only accessors are proved equal to a lookup on `State()`. |
| `Wrappers` | `wrappers.dfy` | `Option`. |

Doubles are modelled as `real`. `std::sqrt` is not evaluated: an error is kept as the
expression the source computes (`Quantity`: `Sqrt(r)` or `SqrtPerEffectiveEntries(r, Σw, Σw²)`).

Two behaviours of the source are modelled as written:

- The overflow bin of the region is filled for every point (`TProfile2Poly.cxx:130-132`).
  The comment at line 366 calls -5 the middle region, the one holding the polygon bins, so
  points inside both axis ranges fill overflow slot 4 as well (`Overflow.InsidePointIsCentre`).
- The error-of-the-mean division by the square root of the effective entries is not guarded
  (`TProfile2Poly.cxx:66,71`). The model keeps it as an unevaluated quotient.

## Model

| member | source | states |
|---|---|---|
| ProfileBin.Bin.constructor | hist/hist/src/TProfile2Poly.cxx:17-26 | an overflow bin starts with all sums, the average and the error zero, in spread mode |
| ProfileBin.Bin.Polygon | hist/hist/src/TProfile2Poly.cxx:28-37 | a polygon bin starts empty in spread mode, whatever the profile's mode, and keeps its number and polygon |
| ProfileBin.Bin.Merge | hist/hist/src/TProfile2Poly.cxx:39-45 | the four sums of the other bin are added; average, error, mode and content are unchanged |
| ProfileBin.Bin.Update | hist/hist/src/TProfile2Poly.cxx:47-52 | the bin becomes UpdateError(UpdateAverage(old state)) |
| ProfileBin.Bin.UpdateAverage | hist/hist/src/TProfile2Poly.cxx:54-57 | the average becomes Σw·v/Σw when Σw ≠ 0; otherwise nothing changes |
| ProfileBin.Bin.UpdateError | hist/hist/src/TProfile2Poly.cxx:59-73 | the error is sqrt of (Σw·v²/Σw − average²), or of 0 when Σw = 0; every mode but spread divides by sqrt of the effective entries, unguarded |
| ProfileBin.Bin.ClearStats | hist/hist/src/TProfile2Poly.cxx:75-83 | the sums, the average and the error become zero; mode and content are kept |
| ProfileBin.Bin.Fill | hist/hist/src/TProfile2Poly.cxx:85-92 | the bin becomes the old state with the sample added to the sums, then updated |
| BinStatistics.FillAddsSample | hist/hist/src/TProfile2Poly.cxx:85-92 | one fill adds exactly (w, w·v, w², w·v²) to the sums and changes neither mode nor content |
| BinStatistics.FillAllSums | hist/hist/src/TProfile2Poly.cxx:85-92 | a sequence of fills adds the total contribution of its samples to the sums |
| BinStatistics.SumSamplesPermutation | hist/hist/src/TProfile2Poly.cxx:85-92 | the total contribution of samples depends only on the multiset of samples |
| BinStatistics.FillOrderIrrelevantForSums | hist/hist/src/TProfile2Poly.cxx:85-92 | filling the same samples in any order gives the same sums |
| BinStatistics.FillOrderIrrelevant | hist/hist/src/TProfile2Poly.cxx:54-92 | when the weights do not cancel, the whole bin, including average and error, is independent of the fill order |
| BinStatistics.FillOrderShowsWhenWeightsCancel | hist/hist/src/TProfile2Poly.cxx:54-57 | when Σw returns to zero the kept average depends on the fill order (averages 1 and 5 for the two orders) |
| BinStatistics.FillAllSettled | hist/hist/src/TProfile2Poly.cxx:47-92 | after fills leaving Σw ≠ 0, the bin is its sums with freshly computed average and error |
| BinStatistics.UpdateForgetsDerived | hist/hist/src/TProfile2Poly.cxx:47-73 | with Σw ≠ 0, Update depends only on the sums, mode and content, not on the cached average and error |
| BinStatistics.UpdateIdempotent | hist/hist/src/TProfile2Poly.cxx:47-73 | a second Update changes nothing |
| BinStatistics.UpdateIgnoresContent | hist/hist/src/TProfile2Poly.cxx:47-73 | Update neither reads nor writes the displayed content |
| BinStatistics.MergeEqualsReplay | hist/hist/src/TProfile2Poly.cxx:39-45 | merging a bin filled with ys into one filled with xs gives the sums of filling xs then ys |
| BinStatistics.AddSumsAssociative | hist/hist/src/TProfile2Poly.cxx:39-45 | adding sums is associative, so repeated merges can be grouped freely |
| BinStatistics.MergedAverageIsWeightedMean | hist/hist/src/TProfile2Poly.cxx:39-57 | after a merge and an update, the average is the Σw-weighted mean of the two bins' averages |
| BinStatistics.ConstantValueHasNoSpread | hist/hist/src/TProfile2Poly.cxx:54-92 | a bin that only saw the value v has average v and a zero radicand |
| Overflow.OverflowRegion | hist/hist/src/TProfile2Poly.cxx:363-395 | 0 exactly when there is no polygon bin (fNcells ≤ 9); otherwise a region in [-9, -1] |
| Overflow.RegionIsCompassCell | hist/hist/src/TProfile2Poly.cxx:378-394 | the region is −(3·row + column) − 1 for the point's compass row and column |
| Overflow.RegionPartition | hist/hist/src/TProfile2Poly.cxx:378-394 | a point is in region r if and only if its row is (−r−1)/3 and its column is (−r−1)%3 |
| Overflow.RegionSurjective | hist/hist/src/TProfile2Poly.cxx:378-394 | every region in [-9, -1] is reached by some point |
| Overflow.RegionEdges | hist/hist/src/TProfile2Poly.cxx:379-392 | the upper edges xMax and yMax count as inside; the lower edges xMin and yMin as outside |
| Overflow.InsidePointIsCentre | hist/hist/src/TProfile2Poly.cxx:366-392 | a point inside both axis ranges is in the centre region -5 |
| Overflow.EmptyProfileOverflowIndexAsWritten | hist/hist/src/TProfile2Poly.cxx:130-132 | as written, a fill on a profile without polygon bins indexes the overflow array at -1 |
| Overflow.FilledOverflowSlot | hist/hist/src/TProfile2Poly.cxx:130-132 | the slot filled for region r is −r−1 in [0, 9), and there is none for region 0 |
| Overflow.FilledOverflowSlotInRange | hist/hist/src/TProfile2Poly.cxx:130-132 | for every point the corrected fill touches an existing overflow slot, and one exactly when polygon bins exist |
| Overflow.Locate | hist/hist/src/TProfile2Poly.cxx:269-271 | no bin for 0, for numbers above the bin count and for numbers below -9; −k−1 is overflow slot k; i+1 is polygon bin i |
| Overflow.LocateRoundTrip | hist/hist/src/TProfile2Poly.cxx:267-300 | Locate inverts the public numbering on every existing slot |
| Overflow.RegionAddressesFilledSlot | hist/hist/src/TProfile2Poly.cxx:130-169 | the region Fill returns, used as a bin number, reads the overflow bin Fill updated |
| Overflow.GridCell | hist/hist/src/TProfile2Poly.cxx:135-142 | the clamped column (or row) lies in [0, count) |
| Overflow.GridCellHolds | hist/hist/src/TProfile2Poly.cxx:135-142 | inside the axis range the chosen cell contains the coordinate; below it the first cell, at or above it the last |
| Overflow.FloorCell | hist/hist/src/TProfile2Poly.cxx:135-136 | floor((c − lo)/step) is below, inside or above [0, count) as c is below, inside or above the range, and its cell contains c |
| Overflow.CellIndexInRange | hist/hist/src/TProfile2Poly.cxx:157 | n + fCellX·m is a valid index into the fCellX·fCellY cells |
| ProfileStatistics.StatsArrayRoundTrip | hist/hist/src/TProfile2Poly.cxx:321-332 | the stats array encodes the nine accumulators losslessly, in both directions |
| ProfileStatistics.StatsArrayAdditive | hist/hist/src/TProfile2Poly.cxx:206-214 | adding accumulators adds their stats arrays entry by entry |
| ProfileStatistics.FillAddsOnePoint | hist/hist/src/TProfile2Poly.cxx:144-153 | a fill adds to the accumulators those of a profile that saw only that point |
| ProfileStatistics.BinAt | hist/hist/src/TProfile2Poly.cxx:267-300 | the bin a public bin number reads: none for out-of-range numbers, list element bin−1, or overflow slot −bin−1 |
| ProfileStatistics.MergeAcceptedAsWrittenMeans | hist/hist/src/TProfile2Poly.cxx:187-200 | the as-written check accepts exactly the non-empty lists whose profiles all have the same bin count |
| ProfileStatistics.MergeAcceptedExtendsAsWritten | hist/hist/src/TProfile2Poly.cxx:192-201 | the corrected check is the as-written one plus the target's count being the common count |
| ProfileStatistics.TargetCountNotCheckedAsWritten | hist/hist/src/TProfile2Poly.cxx:192-230 | the as-written check accepts one input with one bin into a target with none |
| ProfileStatistics.LargerTargetAcceptedAsWritten | hist/hist/src/TProfile2Poly.cxx:192-237 | the as-written check also accepts one input with one bin into a target with two, which the corrected check rejects |
| ProfileStatistics.TotalColumn | hist/hist/src/TProfile2Poly.cxx:225-231 | bin i of the inputs' total is the sum of the inputs' bins i, in list order |
| ProfileStatistics.TotalPermutation | hist/hist/src/TProfile2Poly.cxx:203-234 | the total of the inputs depends only on the multiset of inputs |
| ProfileStatistics.MergeTally | hist/hist/src/TProfile2Poly.cxx:203-237 | after a merge, every sum of the target is its old value plus the inputs' total |
| ProfileStatistics.MergeAcceptanceOrderIrrelevant | hist/hist/src/TProfile2Poly.cxx:192-200 | reordering the input list changes neither the as-written check nor the corrected one, for inputs of any bin counts |
| ProfileStatistics.MergeOrderIrrelevant | hist/hist/src/TProfile2Poly.cxx:185-237 | for inputs with the target's bin counts, reordering the input list changes neither acceptance nor any part of the result (for inputs of any counts, see MergeAcceptanceOrderIrrelevant) |
| ProfileStatistics.MergeInStages | hist/hist/src/TProfile2Poly.cxx:203-237 | merging a then b gives the same sums as merging a + b at once |
| ProfileStatistics.MergeNested | hist/hist/src/TProfile2Poly.cxx:203-237 | merging c into b and then b into a gives the same sums as merging [b, c] into a |
| ProfileStatistics.MergeOfEmptyInputs | hist/hist/src/TProfile2Poly.cxx:203-237 | merging inputs that hold nothing leaves every sum unchanged |
| ProfileStatistics.MergeIntoEmpty | hist/hist/src/TProfile2Poly.cxx:203-237 | merging one profile into an empty target reproduces that profile's sums |
| ProfileStatistics.FillAddsPointTally | hist/hist/src/TProfile2Poly.cxx:127-169 | a fill adds its one point's tally to every sum: entries, accumulators, reached bins and the region's overflow slot |
| ProfileStatistics.FillsCommuteOnSums | hist/hist/src/TProfile2Poly.cxx:127-169 | two fills leave the same sums in either order |
| ProfileStatistics.FillBeforeMergeCountsTheSame | hist/hist/src/TProfile2Poly.cxx:127-237 | filling a point into an input and then merging gives the same sums as merging and then filling |
| ProfileStatistics.FillShowsMean | hist/hist/src/TProfile2Poly.cxx:159-166 | every polygon bin a fill reaches then shows its weighted mean |
| ProfileStatistics.ShowAveragesMeans | hist/hist/src/TProfile2Poly.cxx:240-248 | showing averages changes no sum, and each bin with Σw ≠ 0 shows Σw·v/Σw |
| ProfileStatistics.ShowAveragesIdempotent | hist/hist/src/TProfile2Poly.cxx:240-248 | showing averages twice equals showing them once |
| ProfileStatistics.ShowErrorsMeans | hist/hist/src/TProfile2Poly.cxx:250-258 | showing errors changes no sum; each bin's content is the error `Update` computes from its sums and mode, in spread mode with weight the square root of Σw·v²/Σw − (Σw·v/Σw)² |
| ProfileStatistics.ResetMeans | hist/hist/src/TProfile2Poly.cxx:348-361 | after a reset the bins, fEntries and all seven base-class sums (fTsumw, fTsumw2, fTsumwx, fTsumwx2, fTsumwy, fTsumwy2, fTsumwxy) are zero, fTsumwz, fTsumwz2 and the overflow bins are kept, and a second reset changes nothing |
| ProfileStatistics.WithErrorModeMeans | hist/hist/src/TProfile2Poly.cxx:397-408 | setting the mode changes no sum and no content, and the next update computes the error of the new mode |
| Profile2Poly.CountInsideIsHits | hist/hist/src/TProfile2Poly.cxx:156-167 | the fEntries increments of the cell loop equal the number of bins the fill reaches |
| Profile2Poly.MergeColumn | hist/hist/src/TProfile2Poly.cxx:228-233 | bin i of every input is merged into dst, which is then updated; no input bin changes |
| Profile2Poly.Profile.constructor | hist/hist/src/TProfile2Poly.cxx:96-100 | an empty profile over the given ranges with a 25 × 25 super-grid and nine empty overflow bins |
| Profile2Poly.Profile.WithGrid | hist/hist/src/TProfile2Poly.cxx:102-106 | an empty profile over the given ranges with an nX × nY super-grid |
| Profile2Poly.Profile.CreateBin | hist/hist/src/TProfile2Poly.cxx:108-120 | no bin for a missing polygon; otherwise fNcells grows by one and the new empty spread-mode bin is numbered fNcells − 9 |
| Profile2Poly.Profile.AddBin | hist/hist/src/TProfile2Poly.cxx:108-120 | the created bin is appended, listed in the given cells, numbered by its position, and enters empty |
| Profile2Poly.Profile.FillOverflowSlot | hist/hist/src/TProfile2Poly.cxx:130-132 | the overflow bin of the region, if any, is filled; nothing else changes |
| Profile2Poly.Profile.CellOf | hist/hist/src/TProfile2Poly.cxx:134-142 | the clamped super-grid cell of the point is a valid index into the cells |
| Profile2Poly.Profile.FillStatistics | hist/hist/src/TProfile2Poly.cxx:144-153 | the nine accumulators take the point; nothing else changes |
| Profile2Poly.Profile.FillCell | hist/hist/src/TProfile2Poly.cxx:156-167 | each bin of the cell list that contains the point is filled, updated and shows its average; fEntries grows by their number |
| Profile2Poly.Profile.FillCellBins | hist/hist/src/TProfile2Poly.cxx:155-167 | the polygon bins become FillBins of the old ones under the cell's hit mask; fEntries grows by the hits |
| Profile2Poly.Profile.Fill | hist/hist/src/TProfile2Poly.cxx:127-170 | returns the overflow region, and the new state is FillStates of the old one for the point's hit mask and region |
| Profile2Poly.Profile.FillUnweighted | hist/hist/src/TProfile2Poly.cxx:122-125 | a fill of weight 1 |
| Profile2Poly.Profile.Merge | hist/hist/src/TProfile2Poly.cxx:185-238 | returns 1 exactly when the list is non-empty and every input has this profile's bin count, and then the state is MergeStates of the old one; otherwise returns -1 and changes nothing |
| Profile2Poly.Profile.MergeAll | hist/hist/src/TProfile2Poly.cxx:203-237 | the accepted merge turns the state into MergeStates of the old one |
| Profile2Poly.Profile.MergeGlobals | hist/hist/src/TProfile2Poly.cxx:203-220 | fEntries, the accumulators and the overflow bins gain the inputs' totals; the polygon bins do not change |
| Profile2Poly.Profile.MergeInput | hist/hist/src/TProfile2Poly.cxx:205-219 | one input's fEntries, accumulators and overflow bins are added |
| Profile2Poly.Profile.MergeOverflowOf | hist/hist/src/TProfile2Poly.cxx:216-219 | each overflow bin of one input is merged into the slot of the same index |
| Profile2Poly.Profile.MergeBinAt | hist/hist/src/TProfile2Poly.cxx:225-234 | bin i becomes the update of itself plus bin i of the inputs' total; every other bin is unchanged |
| Profile2Poly.Profile.MergeBins | hist/hist/src/TProfile2Poly.cxx:222-234 | the polygon bins become UpdateEach(MergeEach(old bins, inputs' total)) |
| Profile2Poly.Profile.SetContentToAverage | hist/hist/src/TProfile2Poly.cxx:240-248 | the state becomes ShowAverages of the old one |
| Profile2Poly.Profile.SetContentToError | hist/hist/src/TProfile2Poly.cxx:250-258 | the state becomes ShowErrors of the old one |
| Profile2Poly.Profile.GetBinEntries | hist/hist/src/TProfile2Poly.cxx:267-272 | Σw of the bin the number addresses, 0 when it addresses none |
| Profile2Poly.Profile.GetBinEntriesW2 | hist/hist/src/TProfile2Poly.cxx:274-279 | Σw² of the addressed bin, 0 when none |
| Profile2Poly.Profile.GetBinEntriesVW | hist/hist/src/TProfile2Poly.cxx:281-286 | Σw·v of the addressed bin, 0 when none |
| Profile2Poly.Profile.GetBinEntriesWV2 | hist/hist/src/TProfile2Poly.cxx:288-293 | Σw·v² of the addressed bin, 0 when none |
| Profile2Poly.Profile.GetBinError | hist/hist/src/TProfile2Poly.cxx:295-300 | the error of the addressed bin, 0 when none |
| Profile2Poly.Profile.GetBinEffectiveEntries | hist/hist/src/TProfile2Poly.cxx:260-265 | nothing exactly when the number addresses no bin, the base class's fOverflow entry for an overflow bin, and for a polygon bin (Σw)²/Σw² built from GetBinEntries and GetBinEntriesW2, the quantity kERRORMEAN divides the error by |
| Profile2Poly.Profile.GetStats | hist/hist/src/TProfile2Poly.cxx:321-332 | the first nine array elements become the accumulators in the documented order; the rest are kept |
| Profile2Poly.Profile.Reset | hist/hist/src/TProfile2Poly.cxx:348-361 | the state becomes ResetState of the old one |
| Profile2Poly.Profile.SetErrorOption | hist/hist/src/TProfile2Poly.cxx:397-408 | the profile's mode and every polygon bin's mode become the given one; the overflow bins keep theirs |

## Left out

- `printOverflowRegions` is left out because it is console output only.
- The `[FAIL]` messages `Merge` writes to the console before returning -1 (`TProfile2Poly.cxx:188,198`) are left out because they are console output only.
- `Merge(TCollection*)` is left out. It only casts each element and forwards to `Merge(vector)`, which is modelled.
- `GetBinEffectiveEntries` for an overflow bin number reads the base class's `fOverflow` array, which is not part of this model. The model returns which entry is read (`BaseOverflowEntry`) instead of its value. For a polygon bin the effective entries (Σw)²/Σw² are kept unevaluated, as in the error.
- Polygon geometry is not modelled. `IsInside` is an uninterpreted containment function carried by each bin.
- The base class `TH2Poly` is not part of this model: its `AddBin`, the cell partition of the plane and its `fCells` bookkeeping. `AddBin` takes the cells to list the new bin in as a parameter.
- `TH2::Reset` is not part of this model. Its effect for the default option is taken as zeroing `fEntries` and the seven sums the base classes declare.
- IEEE rounding, `std::sqrt` and the `(Int_t)` casts are not modelled. Values are reals, square roots are kept symbolic, and the cell index `floor` is exact.
- `SetChanged(true)` in `Update` is not modelled because it is a display flag.
- The lazy creation of the bin list in `CreateBin` (`TProfile2Poly.cxx:112`) is not modelled: the list always exists in the model. Before the first `AddBin` the source's `fBins` may be null, and lines 195, 226, 242 and 252 use it without a check. The model therefore completes three operations that the source would fault on: `Merge` of profiles without polygon bins returns 1, and `SetContentToAverage` and `SetContentToError` on such a profile change nothing. Whether `TH2Poly`'s constructor already creates the list is not part of this model.
- `OverflowIdxToArrayIdx` lives in the header and is not part of this model. It is taken as r ↦ −r−1, the mapping the `GetBin*` accessors use.
- Profile2Poly.Profile.Merge: requires that the inputs are not this profile and own no bin of it. Merging a profile into itself, or with shared bins, is not modelled.
- Profile2Poly.Profile.Merge: rejects (returns -1, changes nothing) a target with more polygon bins than the agreeing inputs. The source merges such inputs into the target's first bins, updates every bin and returns 1 (`TProfile2Poly.cxx:225-237`); the model follows the corrected check of the second finding below.
- Profile2Poly.Profile.constructor: requires xlow < xup and ylow < yup, because the grid step must be positive. The source does not check this.
- Profile2Poly.Profile.WithGrid: requires nX, nY ≥ 1 and non-empty ranges, for the same reason.
- The bin setters `SetContent`, `ClearContent` and `SetErrorOption` of `Bin`, the overflow-bin array behind `NewOverflowBins`, and the bin getters (`GetEntries` as `fSumw`, `GetEntriesW2`, `GetEntriesVW`, `GetEntriesWV2`, `GetError` as `fError`) come from the header or the base class `TH2PolyBin`, which are not part of this model. They are taken as plain field reads and writes.
- The default error mode `kERRORMEAN` of a new profile comes from the header and is taken as given.

## Findings

| source | as written | input that shows it | evidently intended | confidence | as-written member | corrected member |
|---|---|---|---|---|---|---|
| hist/hist/src/TProfile2Poly.cxx:130-132 | `Fill` maps the region to `fOverflowBins[-region - 1]` without checking the region. For a profile without polygon bins the region is 0, so the index is -1. | `Fill(x, y, v)` on a profile before its first `AddBin` | no overflow bin is touched when the region is 0 | not executed | Overflow.EmptyProfileOverflowIndexAsWritten | Overflow.FilledOverflowSlotInRange |
| hist/hist/src/TProfile2Poly.cxx:192-237 | `Merge` checks only that the inputs agree on a bin count `nbins`, not that the target has it. A target with fewer bins makes the bin loop read `fBins->At(i)` of the target past its end (lines 226, 230). A target with more bins is merged only in its first `nbins` bins, every bin is updated, and 1 is returned (lines 225-237). | a target with no polygon bins and one input with one bin; a target with two and one input with one | reject the merge unless every input has the target's bin count; the model's `Merge` therefore returns -1 and changes nothing where the source completes a partial merge with 1 | not executed | ProfileStatistics.TargetCountNotCheckedAsWritten, ProfileStatistics.LargerTargetAcceptedAsWritten | Profile2Poly.Profile.Merge |
