# LolliPop deconvolution pipeline — a verified model

LolliPop estimates the relative abundance of SARS-CoV-2 variants in
wastewater. It starts from a *tally* table with one row per (sample,
mutation) and one categorical column per variant. The pipeline:

- preprocesses the tally into 0/1 variant indicators and adds a complement
  row for every mutation;
- splits the rows by location, bootstrap pass and date window;
- hands each slice to a kernel-smoothed regression engine;
- tags every fitted table with its location and estimate kind;
- concatenates, melts, aggregates and sorts the results;
- writes them as a long or wide CSV table and as a nested JSON document.

This project models the deterministic data shaping around the regression.
The engine, the resampler, the bootstrap summaries, `exp` and the JSON
serialiser are all function-valued parameters.

Modules:

- `Common`: Option/Result/Outcome, order-keeping filters, `unique()`,
  code-point string order and a sort.
- `TallyModel`: cells, rows and the tally table.
- `Preprocessors`: every step of `DataPreprocesser.general_preprocess` as a
  function with its own filter postcondition, and their composition
  `Preprocess`. The class `DataPreprocesser` performs the same steps in place
  on its `tally` field.
- `Locations`, `Schedule`: location resolution, `no_date` dummy dates, the
  variant schedule and the date windows of the `deconvolute` command.
- `Driver`: the location × pass × window loop. It is a fold specification
  plus one method per loop level, each proved equal to the fold.
- `Aggregate`: concatenation, NaN filling, melt, aggregation, sorting and the
  logit back-transform.
- `Export`: long and wide tables, column dropping, the JSON document and
  NaN → `null`.
- `Cli`: the `deconvolute` command, stage by stage.
- `Legacy`: the older stand-alone driver `deconvolute.py` (per-city loop
  without windows).

Modelling conventions:

- Dates are days since 1970-01-01. 1999-12-01 is 10926 and 2020-01-01 is
  18262.
- NaN and NaT are `None`.
- A tally row stores its variant cells in a map; an absent key reads as NaN.
- Where the code relies on Python's set iteration order, the contracts state
  only set-level facts. `list(set(...))` of variants (`SetToSeq`) may yield
  any order, and the command's outcome is stated for the order picked. `found_var`, the wide-pivot value columns, the automatic location
  list and the `no_date` JSON columns use an order the model fixes.
- pandas 2 semantics: `sum(axis=1)` raises TypeError only when a label meets
  a number in the addition (`NonNumericIndicator`). A row of labels alone
  sums to a string, which is neither 0 nor the column count, so the row is
  kept. With `make_complement`, such a row then raises at `1 - t_data[...]`
  (line 19 of lollipop/preprocessors.py; `LabelInComplement`). Without it, the
  row stays in the output with its labels.
- Where the code and its help text differ, the model follows the code:
  - `filter_mutations` ignores its filters;
  - `no_loc` replaces every location, even when the table has a `location`
    column.

## Model

| member | source | states |
|---|---|---|
| Preprocessors.RenameCells | lollipop/preprocessors.py:41 | with an injective map, every renamed cell lands under its canonical name, unrenamed cells keep theirs, and no cell value is invented |
| Preprocessors.Rename | lollipop/preprocessors.py:38-41 | the variant columns become their canonical names; only the cells of each row change, each renamed cell is readable under its new name, and the row count is unchanged |
| Preprocessors.DropColumns | lollipop/preprocessors.py:43-45 | the not-reported columns disappear (absent names are ignored); every other cell and every other field is unchanged |
| Preprocessors.RenameKeepsLabels | lollipop/preprocessors.py:38-45 | renaming and dropping columns never turn a label or NaN cell into a number |
| Preprocessors.DropMissing | lollipop/preprocessors.py:47-49 | a row survives iff its frac is present and, unless `no_date`, its date is present; survivors keep their order (the KeyError for a table without a `date` column is `Preprocess`'s `MissingDateColumn`) |
| Preprocessors.NatString | lollipop/preprocessors.py:54 | the decimal rendering of a natural number is non-empty and all digits |
| Preprocessors.IntString | lollipop/preprocessors.py:54 | `str` of an int is non-empty, all digits for n ≥ 0 and starts with '-' for n < 0 |
| Preprocessors.BuildSignatures | lollipop/preprocessors.py:51-55 | with both `base` and `pos` columns each signature is str(pos) + base and nothing else changes; otherwise the table is unchanged |
| Preprocessors.SignaturesKeepRows | lollipop/preprocessors.py:51-55 | building signatures keeps every row's frac and date and leaves label-only cells label-only |
| Preprocessors.KeepFrom | lollipop/preprocessors.py:61-62 | keeps exactly the rows with a date ≥ start, in order |
| Preprocessors.KeepBefore | lollipop/preprocessors.py:63-64 | keeps exactly the rows with a date < end, in order |
| Preprocessors.FilterDates | lollipop/preprocessors.py:60-64 | a row survives iff `no_date` holds or its date lies in the half-open range [start, end) with either bound optional; in `no_date` mode the table is unchanged |
| Preprocessors.KeepNonDeletions | lollipop/preprocessors.py:68 | keeps exactly the rows whose base is not "-", in order |
| Preprocessors.RemoveDeletions | lollipop/preprocessors.py:66-74 | with `remove_deletions` and a `base` column, no surviving row is a deletion and all others survive; without a `base` column the table is unchanged |
| Preprocessors.DropTagged | lollipop/preprocessors.py:88-91 | keeps exactly the rows whose cell in column v is not a `to_drop` tag, in order |
| Preprocessors.DropTaggedAll | lollipop/preprocessors.py:87-91 | after the loop over the variants, a row survives iff none of its present listed columns holds a `to_drop` tag; survivors keep their relative order |
| Preprocessors.RecodeCellBits | lollipop/preprocessors.py:96-100 | recoding a non-numeric cell yields 0 or 1, unless it is a label outside the tag words |
| Preprocessors.RecodeText | lollipop/preprocessors.py:96-100 | a text field is kept iff it is present and not a tag word; a tag word becomes 1 and NaN becomes 0 (`replace(np.nan, 0)`, line 96), both numbers, modelled as no text |
| Preprocessors.RecodeRow | lollipop/preprocessors.py:96-100 | every variant cell of a row is recoded (NaN → 0, tag word → 1); `location`, `location_code` and `plantname` are recoded by `RecodeText` too; every other field is unchanged |
| Preprocessors.Recode | lollipop/preprocessors.py:96-100 | every row is recoded over the table's variant columns, in place and in order |
| Preprocessors.RemoveUninformative | lollipop/preprocessors.py:103-108 | keeps exactly the rows whose indicator sum is neither 0 nor the number of present variant columns, plus the rows holding a label (whose sum is a string), in order |
| Preprocessors.AddUndetermined | lollipop/preprocessors.py:111 | every row gets `undetermined` = 0 and nothing else changes |
| Preprocessors.ComplementRow | lollipop/preprocessors.py:14-22 | the mirror row has signature "-" + m, frac 1 − frac, every listed bit flipped, other cells kept and undetermined = 1 |
| Preprocessors.MakeComplement | lollipop/preprocessors.py:14-22 | one mirror per row, position by position |
| Preprocessors.WithComplement | lollipop/preprocessors.py:112-115 | twice as many rows: the originals first, then each row's mirror at the same offset |
| Preprocessors.ComplementTwice | lollipop/preprocessors.py:14-22 | over exact reals, complementing twice restores frac and every indicator; only the "--" prefix and undetermined = 1 remain |
| Preprocessors.ComplementIndicatorSum | lollipop/preprocessors.py:19 | over numeric columns, the mirror's indicator sum is the column count minus the original's |
| Preprocessors.ComplementInformative | lollipop/preprocessors.py:103-115 | the mirror of an informative row is informative |
| Preprocessors.CleanedRows | lollipop/preprocessors.py:41-74 | every row left after the cleaning steps has a frac, a date in range unless `no_date`, and is no deletion when deletions are removed |
| Preprocessors.FilterSteps | lollipop/preprocessors.py:47-74 | after the missing-value, date-range and deletion filters every row is clean, the `base` flag is kept, and label-only cells stay label-only |
| Preprocessors.RecodedRows | lollipop/preprocessors.py:87-100 | those properties survive the tag drop and recoding, and on label-only input every numeric indicator is 0 or 1 |
| Preprocessors.RecodeStep | lollipop/preprocessors.py:87-100 | dropping tagged rows and recoding keep every row clean; on label-only input every numeric indicator after recoding is 0 or 1 |
| Preprocessors.RecodeNumeric | lollipop/preprocessors.py:96-108 | when every label is a tag word, every listed variant column is numeric after recoding, so the row-wise sum cannot fail |
| Preprocessors.SurvivorRows | lollipop/preprocessors.py:96-111 | when every summed cell is a number after recoding, every surviving original row is clean and informative, has undetermined = 0, and has 0/1 indicators on label-only input |
| Preprocessors.SurvivorStep | lollipop/preprocessors.py:103-111 | on numeric indicators, every row kept by the informativeness filter is clean and informative, gets undetermined = 0, and has 0/1 listed indicators on label-only input |
| Preprocessors.PreprocessShape | lollipop/preprocessors.py:103-115 | a successful run yields the survivors followed by their mirrors (twice the rows, originals with undetermined 0, mirrors with 1), or the survivors alone without complements |
| Preprocessors.RecodeHidesTagNames | lollipop/preprocessors.py:96-100 | after the whole-frame replacement no location, location code or plant name is a tag word |
| Preprocessors.SurvivorsNoTagNames | lollipop/preprocessors.py:102-108 | removing uninformative rows and adding the undetermined column keep that property |
| Preprocessors.ComplementNoTagNames | lollipop/preprocessors.py:14-22 | appending the complemented rows keeps that property |
| Preprocessors.PreprocessNoTagNames | lollipop/preprocessors.py:96-115 | no row of a preprocessed table has a tag word as its location, location code or plant name |
| Preprocessors.PreprocessFails | lollipop/preprocessors.py:14-117 | each error iff its check is the first to fail, in source order: the renaming error iff the rename map is not injective (line 38); the missing-date error iff, after that, the table has no `date` column (KeyError at lines 47-49, or at line 58 with `no_date`); the sum error iff, after those, some recoded row mixes a label and a number among the variant columns (lines 104-107); the complement error iff, after those, complements are on and some recoded row holds a label (line 19) |
| Preprocessors.LabelsSurvive | lollipop/preprocessors.py:103-111 | the sum filter and the `undetermined` column keep a label among the rows exactly when one was there |
| Preprocessors.RecodedNoMissing | lollipop/preprocessors.py:96-100 | after recoding, a variant cell is a number or a label, never NaN |
| Preprocessors.ComplementNeedsNumbers | lollipop/preprocessors.py:14-117 | with complements on (as both commands run it), preprocessing succeeds iff the rename map is injective, the `date` column exists and every summed indicator is a number after recoding |
| Preprocessors.LabelsRecodeToBits | lollipop/preprocessors.py:47-108 | input whose cells are only tag words or NaN preprocesses successfully iff it has a `date` column |
| Preprocessors.DataPreprocesser.constructor | lollipop/preprocessors.py:11-12 | the object holds the given table |
| Preprocessors.DataPreprocesser.GeneralPreprocess | lollipop/preprocessors.py:24-117 | the in-place steps succeed iff `Preprocess` does and leave exactly its table, and fail with exactly its error; the table is then what the last assignment before the raising line made it: unchanged at the assertion, renamed (and with `no_date` also filtered and signed) at the missing `date` column, recoded at the sum, the filtered rows at the complement |
| Preprocessors.PreprocessTally | lollipop/cli/deconvolute.py:297-307 | building the preprocessor, `general_preprocess` and `filter_mutations` yield exactly `Preprocess`'s result |
| Preprocessors.DataPreprocesser.Clean | lollipop/preprocessors.py:41-74 | the field becomes the cleaned table |
| Preprocessors.DataPreprocesser.DropTags | lollipop/preprocessors.py:87-91 | the loop over the variants leaves in the field exactly the rows none of whose listed columns holds a `to_drop` tag |
| Preprocessors.DataPreprocesser.FilterMutations | lollipop/preprocessors.py:119-123 | returns the same object whatever the filters |
| TallyModel.PresentVariants | lollipop/preprocessors.py:103 | the listed variants that are columns, each once |
| TallyModel.BitsSumBounds | lollipop/preprocessors.py:105-107 | a sum of 0/1 indicators lies between 0 and the column count |
| TallyModel.InformativeBits | lollipop/preprocessors.py:104-108 | on 0/1 indicators, informative means strictly between none and all |
| Common.Filter | lollipop/cli/deconvolute.py:357 | a boolean-mask selection keeps exactly the matching rows, in order |
| Common.Distinct | lollipop/cli/deconvolute.py:226 | `unique()`: the same elements, each once |
| Common.SortBy | lollipop/cli/deconvolute.py:519 | the result is ascending by the key and a permutation of the input |
| Locations.CopyCodes | lollipop/cli/deconvolute.py:167-169 | each row's location becomes its location code and nothing else changes |
| Locations.StampAll | lollipop/cli/deconvolute.py:174 | every row gets the one location and nothing else changes |
| Locations.RowLocations | lollipop/cli/deconvolute.py:206 | the non-NaN location values that occur in some row |
| Locations.NamedLocations | lollipop/cli/deconvolute.py:203 | exactly the observed locations other than "" and NaN |
| Locations.AutoLocations | lollipop/cli/deconvolute.py:203 | those locations, each once |
| Locations.Fallback | lollipop/cli/deconvolute.py:166-184 | afterwards there is a location column or `no_loc` is on; it fails iff no location, no code and a list whose length is not 1 |
| Locations.ResolveKeepsRows | lollipop/cli/deconvolute.py:166-209 | resolution only rewrites the location column |
| Locations.NoLocSingle | lollipop/cli/deconvolute.py:186-199 | with `no_loc`, every row is at "location" and the list is exactly ["location"]; it fails only on an empty table |
| Locations.AutoMode | lollipop/cli/deconvolute.py:201-204 | without a list, the locations are the distinct observed non-empty names |
| Locations.ExplicitMode | lollipop/cli/deconvolute.py:205-209 | with a list, resolution succeeds iff every listed location occurs in the data, keeps the list as given, and otherwise names the bad locations |
| Locations.MissingColumnFallbacks | lollipop/cli/deconvolute.py:166-184 | without a location column: the codes stand in, else a one-element list names every row, else no list switches to `no_loc`, else it fails |
| Locations.LenOfNoneDiscrepancy | lollipop/cli/deconvolute.py:170-179 | the code as written and the intended version agree except without location, code and list, where the former fails with a TypeError |
| Locations.LenOfNoneExample | lollipop/cli/deconvolute.py:170-179 | a one-row table without location columns fails as written and resolves to ["location"] as intended |
| Schedule.EffectiveNoDate | lollipop/cli/deconvolute.py:213-215 | `no_date` is on iff requested, or the table has no date column, or every date is NaT |
| Schedule.SampleOrder | lollipop/cli/deconvolute.py:226 | the distinct samples, each once |
| Schedule.AssignDummyDates | lollipop/cli/deconvolute.py:224-235 | each row is dated 1999-12-01 plus the first-appearance index of its sample; nothing else changes |
| Schedule.DummyDatesPerSample | lollipop/cli/deconvolute.py:224-235 | two rows share a dummy date iff they share a sample, and all dates lie in [1999-12-01, +#samples) |
| Schedule.ScheduleVariants | lollipop/cli/deconvolute.py:246-248 | every variant named in some schedule entry |
| Schedule.SetToSeq | lollipop/cli/deconvolute.py:252 | `list(set)`: each element once, nothing else |
| Schedule.ReconciledCovers | lollipop/cli/deconvolute.py:246-262 | a reconciled variant list names every variant of the schedule |
| Schedule.ReconcileVariants | lollipop/cli/deconvolute.py:238-282 | with a schedule, the list keeps its prefix and is extended by exactly the schedule-only variants (so it covers the schedule); without a list these are the schedule's variants or the canonical names; without a schedule there is a single window at 1999-12-01 (`no_date`) or the start date (2020-01-01 by default) |
| Schedule.Intervals | lollipop/cli/deconvolute.py:285-286 | each key is paired with the next, the last with None |
| Schedule.CheckOrder | lollipop/cli/deconvolute.py:287-292 | passes iff `no_date` or every bounded interval has start < end, and otherwise reports such an interval |
| Schedule.OrderCheckIffAscending | lollipop/cli/deconvolute.py:285-292 | outside `no_date`, the intervals pass iff the keys are strictly ascending |
| Schedule.OrderMessageDiscrepancy | lollipop/cli/deconvolute.py:290-292 | the code as written fails exactly when intended, but with a NameError |
| Schedule.OrderMessageExample | lollipop/cli/deconvolute.py:290-292 | 2021-02-01 before 2021-01-01 makes both versions fail, the written one with the NameError |
| Schedule.WindowRows | lollipop/cli/deconvolute.py:378-388 | keeps exactly the rows with start ≤ date < end (≥ start for the last window), in order; all rows in `no_date` mode |
| Schedule.WindowsCover | lollipop/cli/deconvolute.py:378-388 | with ascending keys, a date lies in some window iff it is on or after the first key |
| Schedule.WindowsDisjoint | lollipop/cli/deconvolute.py:378-388 | with ascending keys, no date lies in two windows |
| Schedule.WindowsPartition | lollipop/cli/deconvolute.py:378-388 | together: every date from the first key on falls in exactly one window |
| Schedule.AscendingFrom | lollipop/cli/deconvolute.py:287-292 | ascending consecutive keys are ascending over any distance |
| Driver.LowerAll | lollipop/cli/deconvolute.py:329 | ASCII lower-casing, character by character |
| Driver.Capitalize | lollipop/cli/deconvolute.py:329 | `str.capitalize`: first character upper-cased, the rest lower-cased |
| Driver.ConfintName | lollipop/cli/deconvolute.py:324-329 | the confidence-interval name is "Wald" |
| Driver.CheckMode | lollipop/cli/deconvolute.py:324-328 | fails iff a confidence interval is configured and bootstrap > 1 |
| Driver.Width | lollipop/cli/deconvolute.py:422-442 | a fit contributes 1 or 3 tables |
| Driver.TagFit | lollipop/cli/deconvolute.py:422-442 | with a confidence interval, the fit becomes three tables tagged MSE, Wald_lower and Wald_upper with the location; otherwise one untagged table |
| Driver.TagAllLength | lollipop/cli/deconvolute.py:422-442 | Width tables per fit |
| Driver.TagAllGroup | lollipop/cli/deconvolute.py:422-442 | the i-th group of Width tables is the tagging of the i-th fit |
| Driver.TagAllGrouped | lollipop/cli/deconvolute.py:422-442 | the whole result is the groups of all fits, in order |
| Driver.TagAllAppend | lollipop/cli/deconvolute.py:427-442 | appending fits appends their tables |
| Driver.Passes | lollipop/cli/deconvolute.py:361-365 | `bootstrap` passes when bootstrap > 1, else exactly one |
| Driver.LocationRows | lollipop/cli/deconvolute.py:356-360 | the rows of the location, or all rows with `no_loc` |
| Driver.Weights | lollipop/cli/deconvolute.py:405-409 | weights exist iff bootstrapping, one `resample_value` per row |
| Driver.KeepInformative | lollipop/cli/deconvolute.py:396-400 | keeps exactly the informative rows of the slice, in order |
| Driver.SliceFit | lollipop/cli/deconvolute.py:378-420 | a slice is skipped iff it is empty, or empty after the informative filter; otherwise the engine gets the window's variants plus "undetermined", the kept rows and their weights; the failures are a non-numeric sum or missing columns |
| Driver.DesignRows | lollipop/cli/deconvolute.py:378-400 | the rows handed to the engine lie in the window, are informative and keep the pass's order |
| Driver.RunWindows | lollipop/cli/deconvolute.py:373-442 | every fit of a pass is stamped with its location |
| Driver.AllPassRows | lollipop/cli/deconvolute.py:361-371 | one row set per pass, resampled when bootstrapping |
| Driver.RunPasses | lollipop/cli/deconvolute.py:361-442 | every fit over a location's passes is stamped with that location |
| Driver.RunLocations | lollipop/cli/deconvolute.py:352-442 | every fit belongs to a listed location |
| Driver.WindowsFailSticks | lollipop/cli/deconvolute.py:373-420 | once a window fails, later windows cannot change the error |
| Driver.PassesFailSticks | lollipop/cli/deconvolute.py:361-420 | once a pass fails, later passes cannot change the error |
| Driver.LocationsFailSticks | lollipop/cli/deconvolute.py:352-420 | once a location fails, later locations cannot change the error |
| Driver.WindowsBound | lollipop/cli/deconvolute.py:373-402 | at most one fit per window |
| Driver.PassesBound | lollipop/cli/deconvolute.py:361-402 | at most passes × windows fits per location |
| Driver.LocationsBound | lollipop/cli/deconvolute.py:352-402 | at most locations × passes × windows fits |
| Driver.DeconvolveShape | lollipop/cli/deconvolute.py:352-442 | the result is one group per fit (MSE/lower/upper triples of one location with a confidence interval), every location is listed, and the count is bounded |
| Driver.SkippedSliceAddsNothing | lollipop/cli/deconvolute.py:389-402 | a skipped slice appends nothing |
| Driver.RunPass | lollipop/cli/deconvolute.py:373-442 | the window loop builds exactly the tagged fold over the windows |
| Driver.RunLocation | lollipop/cli/deconvolute.py:361-442 | the pass loop builds exactly the tagged fold over the passes |
| Driver.RunSlices | lollipop/cli/deconvolute.py:352-442 | the location loop builds exactly `Deconvolve` |
| Aggregate.Concat | lollipop/cli/deconvolute.py:445 | fails with "no objects" iff the list is empty; otherwise it has the union of the columns and the stamped rows of each table in turn |
| Aggregate.ConcatColumnsUnion | lollipop/cli/deconvolute.py:445 | a column of the concatenation is a column of some table |
| Aggregate.ConcatRowsContents | lollipop/cli/deconvolute.py:445 | the concatenated rows are exactly the rows of all tables, stamped with their location and estimate |
| Aggregate.FillMissing | lollipop/cli/deconvolute.py:446-447 | every NaN in a column of the frame becomes 0, other values and the ids are unchanged |
| Aggregate.Melt | lollipop/cli/deconvolute.py:462-468 | fails iff a value column is missing, naming them all |
| Aggregate.MeltSound | lollipop/cli/deconvolute.py:462-468 | every long row is one cell of the wide frame: the row's ids, the column as variant and the cell as frac |
| Aggregate.MeltComplete | lollipop/cli/deconvolute.py:462-468 | every cell of a value column becomes a long row |
| Aggregate.MeltLength | lollipop/cli/deconvolute.py:462-468 | value columns × rows long rows |
| Aggregate.GroupKeys | lollipop/cli/deconvolute.py:472-477 | each (location, variant, date) group of the long rows, once |
| Aggregate.GroupValues | lollipop/cli/deconvolute.py:475-484 | exactly the fracs of one group |
| Aggregate.SummarizeGroups | lollipop/cli/deconvolute.py:473-486 | bootstrap aggregation yields one row per group, covering every group, each summarising that group's draws |
| Aggregate.LookupFinds | lollipop/cli/deconvolute.py:496-500 | without duplicate entries, the pivot cell is the one entry's frac |
| Aggregate.LookupAbsent | lollipop/cli/deconvolute.py:496-500 | a cell with no entry is NaN |
| Aggregate.Pivot | lollipop/cli/deconvolute.py:494-507 | fails iff some (location, variant, date, estimate) occurs twice; otherwise one row per group with MSE, lower and upper |
| Aggregate.PivotGroups | lollipop/cli/deconvolute.py:494-500 | the pivot covers exactly the groups, each once |
| Aggregate.PivotEntries | lollipop/cli/deconvolute.py:494-507 | proportion, lower and upper of a pivot row are the group's MSE, Wald_lower and Wald_upper entries |
| Aggregate.PassThrough | lollipop/cli/deconvolute.py:508-514 | the long rows as they are, frac as proportion, without bounds |
| Aggregate.AggregateRows | lollipop/cli/deconvolute.py:471-518 | fails iff it pivots over duplicate entries; there are bounds iff bootstrapping or a confidence interval, and then one row per group |
| Aggregate.Clip | lollipop/cli/deconvolute.py:525-526 | the clipped value lies in the bounds and equals x inside them |
| Aggregate.Logistic | lollipop/cli/deconvolute.py:524-527 | for a positive `exp`, the back-transformed bound lies strictly in (0, 1) over exact reals (only [0, 1] in doubles); NaN stays NaN |
| Aggregate.MapBounds | lollipop/cli/deconvolute.py:521-527 | both bounds of every row are back-transformed, nothing else changes |
| Aggregate.BackTransform | lollipop/cli/deconvolute.py:521-527 | fails iff a confidence interval lacks `scale`; keys and proportions are kept; on the logit scale every bound lies in (0, 1) over exact reals (only [0, 1] in doubles), otherwise the rows are unchanged |
| Aggregate.FoundVariants | lollipop/cli/deconvolute.py:454 | the listed variants present as columns, each once |
| Aggregate.SameKeysSorted | lollipop/cli/deconvolute.py:519-527 | the back-transform keeps the order |
| Aggregate.FinalizeResult | lollipop/cli/deconvolute.py:471-527 | the aggregate is sorted by (location, variant, date), has bounds iff bootstrapping or a confidence interval, has one row per key with bounds, and has logit bounds in (0, 1) over exact reals (only [0, 1] in doubles) |
| Aggregate.PostprocessFailures | lollipop/cli/deconvolute.py:445-468 | post-processing fails with "no objects" on no results, and when no table has an `undetermined` column |
| Aggregate.SortedDistinct | lollipop/cli/deconvolute.py:519 | sorting keeps the keys distinct |
| Aggregate.SingleCopy | lollipop/cli/deconvolute.py:519 | rows with distinct keys occur once each |
| Aggregate.TwoCopies | lollipop/cli/deconvolute.py:519 | a row at two positions occurs twice |
| Export.ValueColumns | lollipop/cli/deconvolute.py:488-514 | the value columns: proportion, with both bounds iff there are bounds, never the date |
| Export.LongCells | lollipop/cli/deconvolute.py:557 | a long row: location, variant, date, then the value columns |
| Export.LongTable | lollipop/cli/deconvolute.py:557 | the rectangular long table with one row per aggregated row |
| Export.WideNames | lollipop/cli/deconvolute.py:540-555 | ("proportion", v) is named v, the bounds v_Lower and v_Upper; index columns keep their names |
| Export.WideNamesDistinct | lollipop/cli/deconvolute.py:540-555 | when no variant is another's bound name, distinct values columns get distinct names |
| Export.SuffixesDiffer | lollipop/cli/deconvolute.py:548 | a _Lower name never equals an _Upper name |
| Export.Pairs | lollipop/cli/deconvolute.py:533-537 | every (value column, variant) pair of the pivot |
| Export.WideKeys | lollipop/cli/deconvolute.py:534 | each (location, date) once, ascending |
| Export.WideVariants | lollipop/cli/deconvolute.py:535 | each variant once, ascending |
| Export.CellValueFinds | lollipop/cli/deconvolute.py:531-539 | with one row per key, a pivot cell is that row's value |
| Export.WideCells | lollipop/cli/deconvolute.py:531-539 | a wide row: location, date, then one cell per pair |
| Export.WideHeader | lollipop/cli/deconvolute.py:540-555 | location, date, then the renamed pairs |
| Export.WideTable | lollipop/cli/deconvolute.py:530-555 | the pivot fails iff a (location, variant, date) occurs twice; otherwise the table is rectangular |
| Export.WideTableCells | lollipop/cli/deconvolute.py:530-555 | one row per (location, date), ascending; column (c, v) holds value c of variant v there |
| Export.DropAligned | lollipop/cli/deconvolute.py:559-562 | dropping keeps exactly the other columns, each cell aligned with its name |
| Export.DroppedNames | lollipop/cli/deconvolute.py:560 | "location" is dropped iff `no_loc`, "date" iff `no_date` |
| Export.OutputTable | lollipop/cli/deconvolute.py:530-563 | fails iff wide with duplicate keys; the CSV lacks location under `no_loc` and date under `no_date` |
| Export.JsonColumns | lollipop/cli/deconvolute.py:573-575 | the export columns, with the date iff not `no_date` |
| Export.Point | lollipop/cli/deconvolute.py:589 | one record has exactly the JSON columns |
| Export.RowsOf | lollipop/cli/deconvolute.py:579-583 | exactly the rows of one location and variant, in table order |
| Export.LocationsOf | lollipop/cli/deconvolute.py:570 | each location of the table once |
| Export.VariantsOf | lollipop/cli/deconvolute.py:571 | each variant of the table once |
| Export.DocumentShape | lollipop/cli/deconvolute.py:567-591 | each location once, each with every variant of the table, each series with one record per row of that location and variant |
| Export.PointFields | lollipop/cli/deconvolute.py:573-589 | a record carries the date iff not `no_date`, the proportion, and both bounds when there are bounds |
| Export.SeriesInDateOrder | lollipop/cli/deconvolute.py:519-591 | over the sorted table, every series is in date order |
| Export.BuildLocation | lollipop/cli/deconvolute.py:577-591 | the variant loop builds exactly the location's entry |
| Export.BuildDocument | lollipop/cli/deconvolute.py:576-591 | the location loop builds exactly the document |
| Export.NullForNaNHead | lollipop/cli/deconvolute.py:595 | the first character after the replacement |
| Export.NoNaNLeft | lollipop/cli/deconvolute.py:595 | after replacing "NaN" by "null" no "NaN" is left |
| Export.HeadNotNaN | lollipop/cli/deconvolute.py:595 | a text not starting with "NaN" still does not after the replacement |
| Export.NullPrefixNoNaN | lollipop/cli/deconvolute.py:595 | "null" before NaN-free text adds no "NaN" |
| Export.NonNPrefix | lollipop/cli/deconvolute.py:595 | a character other than 'N' before NaN-free text adds no "NaN" |
| Export.NaNFreeUnchanged | lollipop/cli/deconvolute.py:595 | NaN-free text is left alone |
| Export.JsonText | lollipop/cli/deconvolute.py:593-596 | the written JSON text contains no "NaN" |
| Cli.Prepare | lollipop/cli/deconvolute.py:166-309 | composed from the corrected `Locations.Resolve` and `Schedule.CheckOrder` of the Findings: a location failure is reported first; once the locations resolve, the result is `PrepareOutcome` for the variant order `list(set(...))` produced (one `Reconciled` allows), so the first failing stage of schedule check and preprocessing is reported; on success the state is what resolution, dates, the schedule and preprocessing make of the table |
| Cli.Run | lollipop/cli/deconvolute.py:316-596 | the result is `RunOutcome`: the mode check, the loop, the post-processing and the output table are tried in turn and the first failure is reported; on success the outputs are the loop, the post-processing, the table and, iff asked for, the JSON text of the prepared state |
| Cli.Deconvolute | lollipop/cli/deconvolute.py:166-596 | the whole command as its authors intended it (with the two corrections of the Findings): a location failure first, otherwise `CommandOutcome` for a reconciled variant order, that is the first failing stage's error or the run's outputs; on success the aggregate is sorted, the CSV lacks the dropped columns and the JSON has no NaN |
| Cli.ScheduleCheck | lollipop/cli/deconvolute.py:284-292 | the order check passes iff there is no schedule, or `no_date` holds, or the schedule keys are strictly ascending |
| Cli.PreprocessInputDated | lollipop/cli/deconvolute.py:213-235 | the table handed to preprocessing always has a `date` column, and it is in `no_date` mode when the input lacked one, so the missing-date error never arises here |
| Cli.PrepareStages | lollipop/cli/deconvolute.py:212-307 | once the locations resolve: an out-of-order schedule ends in a schedule error; otherwise preparation succeeds iff preprocessing does, a preprocessing failure is reported as that error, and a non-injective `variants_pangolin` always ends in the renaming error |
| Cli.PrepareSound | lollipop/cli/deconvolute.py:166-307 | a successful preparation with a reconciled variant list is what `PreparedFrom` describes |
| Cli.RunModeFirst | lollipop/cli/deconvolute.py:326-328 | bootstrapping with a confidence interval fails before the loop runs |
| Cli.RunEmptyLoop | lollipop/cli/deconvolute.py:445 | a loop that yields no fit ends in `pd.concat`'s no-objects error |
| Cli.RunSound | lollipop/cli/deconvolute.py:316-596 | a successful run's outputs are those the stage functions give (`RunFrom`) |
| Cli.RunComplete | lollipop/cli/deconvolute.py:316-596 | conversely, past the mode check, outputs that every stage produces are the run's result |
| Cli.RunFacts | lollipop/cli/deconvolute.py:519-596 | a successful run's aggregate is sorted by (location, variant, date), its CSV has no `location` column under `no_loc` and no `date` column under `no_date`, and its JSON text has no NaN |
| Cli.TagWordLocationEmpty | lollipop/cli/deconvolute.py:352-360 | a location named by a tag word selects no row of the prepared table, since preprocessing recoded it |
| Cli.PostprocessSorted | lollipop/cli/deconvolute.py:519 | the post-processed table is sorted by (location, variant, date) |
| Legacy.PlantNames | deconvolute.py:97 | `unique()` of the plant names, NaN included, each once; a NaN name makes the loop fail (`LegacyLoopFails`) |
| Legacy.Cities | deconvolute.py:90-97 | the `--plant` names, else `cities_list`, else every plant name of the raw table |
| Legacy.CityRows | deconvolute.py:150 | exactly the rows of the city, in order; a NaN city selects nothing |
| Legacy.TagWordCityEmpty | deconvolute.py:150 | a plant named by a tag word selects no row of the preprocessed table, since preprocessing recoded it |
| Legacy.CityFits | deconvolute.py:151-174 | one fit per pass, each on the resampled rows (or the city's rows) of that pass |
| Legacy.LegacyFitsLength | deconvolute.py:146-163 | exactly cities × passes fits |
| Legacy.LegacyFitsAt | deconvolute.py:146-174 | for every city ci and pass b, fit ci × passes + b belongs to city ci and is the engine's fit on that pass's rows (resampled with weights when bootstrapping) |
| Legacy.LegacyLoopFails | deconvolute.py:146-174 | the loop succeeds iff no plant name is NaN and, when there is a city, every listed variant is a column; it fails naming the missing columns iff the first city is a name and a variant is missing; it fails with `CityNotText` (the TypeError of `tqdm.write` at line 148 or of the `trange` description at line 152) iff the first city is NaN, or a later one is and no column is missing |
| Legacy.LegacyLoopShape | deconvolute.py:175-195 | one table per fit, or MSE/Wald_lower/Wald_upper triples of one city with a confidence interval |
| Legacy.LegacyPost | deconvolute.py:197-212 | fails with "no objects" when nothing was appended |
| Legacy.LegacyPostRows | deconvolute.py:197-212 | without a confidence interval no melted frac is NaN; every long row is a cell of a fitted table stamped with its city and estimate; (variants + 1) × rows long rows |
| Legacy.RunCity | deconvolute.py:148-195 | a NaN city fails with `CityNotText`; otherwise the pass loop fails on missing columns and else builds the tagged fits of the city |
| Legacy.RunCities | deconvolute.py:146-195 | the city loop builds exactly `LegacyLoop`, failures included |
| Legacy.LegacyNeedsDate | deconvolute.py:101-109 | the legacy command never sets `no_date`, so a tally without a `date` column fails with the missing-date error (or the renaming error before it) |
| Legacy.LegacyDeconvolute | deconvolute.py:99-212 | preprocessing fails first, then the mode check, then the loop (whose failure, such as a NaN plant name, is passed on), then the post-processing; a successful run returns the melted tagged fits |

## Left out

- Reading and writing files, `click` option parsing, YAML parsing, and
  `print`/`tqdm` progress output. These are I/O.
- `ll.KernelDeconv`, its kernels, regressors and confidence-interval classes.
  They are one function parameter, `engine`, from the design to the fitted
  table with its lower and upper bands.
- The kernel bandwidth override in `no_date` mode (lines 320-322 of
  lollipop/cli/deconvolute.py). It only configures that engine.
- `ll.resample_mutations` and `np.random.seed`. The resampler is a
  parameter of the rows, the location's position and the pass number. A
  seeded generator's stream also depends on the sizes of the earlier draws,
  but each (location position, pass) pair is drawn exactly once per run, in
  a fixed order, so for one input the draw is a function of that pair.
- Bootstrap mean and quantiles, and `np.exp`. These are floating-point
  numerics, modelled as parameters. Only the clip bound and the (0, 1) range
  of the logistic are stated, assuming `exp` is positive.
- Python set iteration order. Contracts state set-level facts only. The
  order of `list(set(...))` of variants is left open: `SetToSeq` may pick any
  order, and `Cli.Prepare` and `Cli.Deconvolute` are stated for the order
  picked. The model
  fixes an order for:
  - `found_var`;
  - the wide pivot's value columns;
  - the automatic location list `list(set(...) - {"", np.nan})` at line 203
    of lollipop/cli/deconvolute.py, which keeps first-appearance order;
  - the `no_date` JSON columns `list(set(json_columns) - {"date"})` at lines
    574-575 of lollipop/cli/deconvolute.py, which keep the export columns'
    order.
- YAML mapping key uniqueness, and the rendering of dates and numbers as
  text. Dates stay day numbers.
- The missing f-prefix at line 172 of lollipop/cli/deconvolute.py. It only
  affects printed text.
- Legacy.LegacyDeconvolute: assumes the tally has a `plantname` column. A
  missing one would raise a KeyError at line 97 of deconvolute.py, and the
  model's rows always carry the field. A missing `date` column is modelled
  (`MissingDateColumn`, see `Legacy.LegacyNeedsDate`).
- Preprocessors.Preprocess: the `frac`, `mutations` and `sample` columns
  (lines 17-18 and 47-49 of lollipop/preprocessors.py, line 226 of
  lollipop/cli/deconvolute.py) are assumed present. The model's rows always
  carry these fields, so the KeyError a table lacking one raises is not
  modelled. Only the `date` column's presence is a flag of the table.
- Driver.SliceFit: any label among the window's summed cells (lines 393-398
  of lollipop/cli/deconvolute.py) is reported as `NonNumericIndicator`, while
  pandas 2 raises only when a label meets a number. Both commands preprocess
  with complements, and `Preprocessors.ComplementNeedsNumbers` shows that
  their tables are then numeric in every present variant column.
- Export.Point: a JSON record is a map, so the key order that
  `dict(tt_df.iloc[i,])` (line 589 of lollipop/cli/deconvolute.py) gives
  `json.dumps` is not modelled. Only the set of keys and their values are
  stated.
- Aggregate.Logistic, Aggregate.BackTransform, Aggregate.FinalizeResult,
  Preprocessors.ComplementTwice: `frac`, the clipped logits and the bounds
  are exact reals. In doubles, the logistic of a clipped value above about
  37 rounds to 1.0, so only [0, 1] holds there, and 1 − (1 − f) need not
  equal f.
- Cli.Prepare: it resolves locations with the corrected `Locations.Resolve`
  and checks the schedule with the corrected `Schedule.CheckOrder`. On the
  inputs of the Findings, the code as written raises TypeError at line 170
  or NameError at line 292 of lollipop/cli/deconvolute.py instead.
- Cli.Deconvolute: it states the intended command, built on `Cli.Prepare`,
  so it shares those two corrections.
  Its outcome is `CommandOutcome` for the variant order `list(set(...))`
  picked, which may be any order `Reconciled` allows; which one CPython's
  hashing picks is not modelled.
- Preprocessors.RecodeRow: `sample`, `base`, `mutations` and `pos` are not
  recoded. A tag word in them would become 1, and none of them is read as a
  name after preprocessing.
- Aggregate.Postprocess: pandas' `sort_values` is not stable. The model's
  sort is, but no contract depends on the order of equal keys.
- Duplicate column names in the tally, and the non-variant columns beyond
  those the pipeline reads (`pos`, `base`, `frac`, `date`, locations,
  `sample`). Data frames are modelled as rows of records.
- Preprocessors.Rename: the renaming is modelled on the variant columns only.
  A canonical name that clashes with an unrenamed column is not modelled.

## Findings

| source | as written | input that shows it | evidently intended | confidence | as-written member | corrected member |
|---|---|---|---|---|---|---|
| lollipop/cli/deconvolute.py:170-179 | `len(locations_list) == 1` is evaluated before `locations_list is None`, so a missing list raises TypeError | a tally without `location` and `location_code` columns and no location list | switch to `no_loc` mode, as the branch at line 175 says | high (not executed) | Locations.LenOfNoneExample | Locations.NoLocSingle |
| lollipop/cli/deconvolute.py:290-292 | the assertion message names `variants_date`, which is undefined, so an out-of-order schedule raises NameError instead of the assertion | a `var_dates` schedule with 2021-02-01 listed before 2021-01-01 | an AssertionError naming the two out-of-order dates | high (not executed) | Schedule.OrderMessageExample | Schedule.CheckOrder |
