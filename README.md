# SNEx2 core: observation ingest, spectrum binning, name and run helpers, flux range, photometry upload

A Dafny model of the logic at the core of SNEx2, the supernova-exchange target and observation manager.
The model covers:

- **Observation ingest** (`ingest_observations.py`). The management command reads SNEx1 observation
  sequences (`obsrequests` rows) and their log entries (`obslog`). It converts each sequence's parameters
  into a SNEx2 parameter dictionary (`get_snex2_params`). New sequences get an observation group and a
  dynamic cadence. An observation record is built for every observation-portal id that SNEx2 does not
  have yet. The SNEx1 group bitmask of each record (`update_permissions`) decides which groups it would
  be shared with.
- **Spectrum binning** (`bin_spectra`). Complete blocks of `b` wavelengths and fluxes are averaged.
  The pair of means is kept when the mean wavelength is positive. A trailing incomplete block repeats the
  previous block's pair.
- **Template-tag helpers** (`custom_code_tags.py`):
  - `get_color` picks a filter family's plot colour.
  - `smart_name_list` normalises a target's names and aliases.
  - `get_best_name` (with `find_name`) picks the name to display.
  - `upcoming_observing_runs` and `past_observing_runs` filter a user's target lists named
    `<telescope>_<YYYYMMDD>` by date.
  - `interesting_targets` finds the `Interesting Targets` list.
- **Spectrum plot range** (`dash_spectra_tags.py`). `calculate_flux_extrema` widens a running
  maximum and minimum by one spectrum's fluxes, and `dash_spectra` threads it through a target's spectra.
- **Photometry upload** (`photometry_processor.py`):
  - a gate on the mimetype;
  - an error for an empty table;
  - header comments `key=value` or `key: value` fill the still-empty reduced-datum extras;
  - one record per row, with the upload's extras overriding the row's fields;
  - each record split into its timestamp and the remaining fields.

Modules:

| file | module | models |
|---|---|---|
| `wrappers.dfy` | `Wrappers` | `Option` and `Result` |
| `py_text.dfy` | `PyText` | the Python string operations the core uses: `split`, `strip`, `upper`/`lower`, `replace`, `in`, `int()`, `float()`, `str()` |
| `permissions.dfy` | `Permissions` | `powers_of_two`, `update_permissions` |
| `snex2_params.dfy` | `Snex2Params` | `get_snex2_params` |
| `ingest.dfy` | `Ingest` | `get_sequences_for_target`, `Command.handle` |
| `binning.dfy` | `Binning` | `bin_spectra` |
| `names.dfy` | `TargetNames` | `get_color`, `smart_name_list`, `get_best_name` |
| `observing_runs.dfy` | `ObservingRuns` | `upcoming_observing_runs`, `past_observing_runs`, `interesting_targets` |
| `flux_extrema.dfy` | `FluxExtrema` | `calculate_flux_extrema`, the combined branch of `dash_spectra` |
| `photometry.dfy` | `Photometry` | `PhotometryProcessor.process_data` and `_process_photometry_from_plaintext` |

The loops of the source that build lists, dictionaries and running values step by step are Dafny
methods with loop invariants: `powers_of_two`, the filter and diffuser loops of `get_snex2_params`, the
row, list, tracking-entry and target loops of ingest, `bin_spectra`, `smart_name_list`, the
observing-run filters, `calculate_flux_extrema` with the `dash_spectra` fold, and the photometry comment
merge and record loop. Each method's `ensures` ties the result to a specification function, and lemmas
about that function state what the source promises. Three loops are first-match searches or a filter
with no state to thread, and are not written as loops: `find_name` (custom_code_tags.py:1375-1378) is
the recursive `TargetNames.FindName`, `interesting_targets` (1496-1498) is the recursive
`ObservingRuns.InterestingTargets`, and the `snex1_groups.items()` loop of `update_permissions`
(ingest_observations.py:101-103) is a set comprehension inside the method
`Permissions.UpdatePermissions`, since the grant it would make is disabled in the source.

Exceptions the source raises become `Err` values naming the exception: `KeyError`, `IndexError`,
`ValueError`, an unbound local, or an API answer that is missing. The model uses the outcome the code
produces, including three places that may surprise a reader:

- Ingest does not skip a sequence whose parameters fail to convert. `get_snex2_params` is called at
  ingest_observations.py:263-266, outside any `try`, so nothing catches its exception and the run fails.
  (The `except: raise` at lines 329-330 covers only the record build and `update_permissions`, and
  re-raises too.)
- `get_best_name` puts a second space into a name that is already spaced. `BestNameSpaced` proves that
  `SN 2021abc` becomes `SN  2021abc`.
- The observing-run filters return their whole input, `Interesting Targets` included, as soon as one
  list's name does not parse. `RunsFallback` proves this.

## Model

| member | source | states |
|---|---|---|
| Permissions.PowersOfTwo | custom_code/management/commands/ingest_observations.py:90-97 | the powers of two whose bits are set in `num`, strictly ascending, each at most `num`, summing to `num`; membership is exactly "the bit is set"; nothing for `num <= 0` |
| Permissions.UpdatePermissions | custom_code/management/commands/ingest_observations.py:78-104 | the groups selected are a subset of the table, and a name is selected exactly when its idcode is a power of two whose bit is set in the mask |
| Permissions.GrantedGroupsExample | custom_code/management/commands/ingest_observations.py:99-102 | mask 5 with groups A=1, B=4 selects both; mask 0 selects none |
| Permissions.Pow2IsPowerOfTwo | custom_code/management/commands/ingest_observations.py:92-96 | the loop's `i` (doubled by `<<=`) is always a power of two |
| Permissions.PowerOfTwoIsPow2 | custom_code/management/commands/ingest_observations.py:92-96 | every power of two is reached by the doubling |
| Permissions.ModDouble | custom_code/management/commands/ingest_observations.py:94-95 | the bits of `num` below `2i` are those below `i` plus `i` when `i & num` is set, which makes the collected powers sum to the low bits |
| Permissions.PowersApart | custom_code/management/commands/ingest_observations.py:92-96 | distinct powers of two are at least a factor two apart, so the collected list is strictly ascending |
| Snex2Params.RealsOf | custom_code/management/commands/ingest_observations.py:166-174 | one `float()` outcome per split exposure time |
| Snex2Params.IntsOf | custom_code/management/commands/ingest_observations.py:167-174 | one `int()` outcome per split count or block number |
| Snex2Params.RealsOfAt | custom_code/management/commands/ingest_observations.py:174 | position `i` holds `float(exptimes[i])` |
| Snex2Params.IntsOfAt | custom_code/management/commands/ingest_observations.py:174 | position `i` holds `int(expnums[i])` / `int(blocknums[i])` |
| Snex2Params.SetBaseFields | custom_code/management/commands/ingest_observations.py:134-150 | the method's dictionary is the fixed fields with their defaults |
| Snex2Params.ParseTriple | custom_code/management/commands/ingest_observations.py:174 | the triple of position `i`, or the error of its first failing conversion or missing column entry |
| Snex2Params.TranslateName | custom_code/management/commands/ingest_observations.py:171-173 | a filter is renamed only when the filter dictionary has it, and then to its entry there; this is `filt_dict.get(f, f)` |
| Snex2Params.AddFilterTriples | custom_code/management/commands/ingest_observations.py:170-174 | the loop adds exactly the triples of the filter specification, failing with its error |
| Snex2Params.FilterTriplesStopAt | custom_code/management/commands/ingest_observations.py:170-174 | the first failing position decides the loop's error |
| Snex2Params.AddDiffusers | custom_code/management/commands/ingest_observations.py:179-180 | MuSCAT's loop adds a `diffuser_<f>_position` key per raw filter |
| Snex2Params.AddFloydsFields | custom_code/management/commands/ingest_observations.py:156-162 | the FLOYDS branch as a method equals its specification |
| Snex2Params.AddImagingFields | custom_code/management/commands/ingest_observations.py:164-180 | the imaging branch as a method equals its specification |
| Snex2Params.AddWindow | custom_code/management/commands/ingest_observations.py:182-186 | the window fields as a method equal their specification |
| Snex2Params.GetSnex2Params | custom_code/management/commands/ingest_observations.py:107-188 | the step-by-step dictionary equals the specification `Snex2Params` |
| Snex2Params.FilterTriplesOkIff | custom_code/management/commands/ingest_observations.py:170-174 | the filter loop succeeds exactly when every position parses |
| Snex2Params.FilterTriplesKeys | custom_code/management/commands/ingest_observations.py:171-174 | the loop writes exactly the translated filter names (`g`→`gp`, `r`→`rp`, `i`→`ip`, `z`→`zs`) |
| Snex2Params.FilterTriplesLastWins | custom_code/management/commands/ingest_observations.py:170-174 | under each name, the triple of the last position with that translated name |
| Snex2Params.DiffuserFlagsContent | custom_code/management/commands/ingest_observations.py:179-180 | exactly one key per raw filter, each `out` |
| Snex2Params.Snex2ParamsOkIff | custom_code/management/commands/ingest_observations.py:143-186 | conversion succeeds exactly when the instrument is known, every number its branch reads parses and `sequenceend` is not the zero date; `repeating` plays no part |
| Snex2Params.ExposuresOkIff | custom_code/management/commands/ingest_observations.py:156-180 | the instrument branch succeeds exactly when every exposure time, exposure count and block count it reads parses, for either instrument |
| Snex2Params.EarlyFailures | custom_code/management/commands/ingest_observations.py:152-184 | an unknown instrument is the `KeyError` of the lookup; a zero end date fails |
| Snex2Params.KeySetsApart | custom_code/management/commands/ingest_observations.py:134-186 | the fixed keys, the FLOYDS keys, the MuSCAT keys and the window keys are disjoint |
| Snex2Params.FloydsFieldsKeep | custom_code/management/commands/ingest_observations.py:156-162 | the FLOYDS branch leaves every other key as it was |
| Snex2Params.ImagingFieldsKeep | custom_code/management/commands/ingest_observations.py:164-180 | the imaging branch leaves every key other than filter names, MuSCAT fields and diffusers as it was |
| Snex2Params.WindowFieldsKeep | custom_code/management/commands/ingest_observations.py:182-186 | only `start` and `end` are written |
| Snex2Params.RoutedFieldKept | custom_code/management/commands/ingest_observations.py:134-154 | a fixed key not overwritten by a filter keeps its value through the instrument branch and the window |
| Snex2Params.Defaults | custom_code/management/commands/ingest_observations.py:134-148 | facility `LCO`, the strategy chosen by `repeating`, lunar distance 20 and mode `NORMAL` when the columns are absent |
| Snex2Params.BaseValues | custom_code/management/commands/ingest_observations.py:134-152 | `facility` is LCO, the strategy follows `repeating`, and a missing moon-distance limit or priority falls back to 20 and NORMAL |
| Snex2Params.RoutedValues | custom_code/management/commands/ingest_observations.py:134-154 | the fixed fields' values before the instrument branch |
| Snex2Params.WindowLast | custom_code/management/commands/ingest_observations.py:182-186 | `start` is the sequence start; `end` is empty exactly for a NULL end, its time otherwise |
| Snex2Params.WindowFieldsValues | custom_code/management/commands/ingest_observations.py:182-186 | the same facts about the window step alone |
| Snex2Params.FloydsShape | custom_code/management/commands/ingest_observations.py:156-162 | a FLOYDS result has the fixed slit, the whole-column count and time, the acquisition radius, the lower-cased guider mode and the guider exposure time, and no per-filter triples |
| Snex2Params.FloydsFieldsValues | custom_code/management/commands/ingest_observations.py:156-162 | the FLOYDS step writes those six values and adds no triple |
| Snex2Params.FloydsWrites | custom_code/management/commands/ingest_observations.py:157-162 | the six FLOYDS assignments over any dictionary add exactly the six FLOYDS keys, each holding what was written |
| Snex2Params.RoutedNoTriple | custom_code/management/commands/ingest_observations.py:134-154 | no fixed field is a triple |
| Snex2Params.WindowFieldsNoTriple | custom_code/management/commands/ingest_observations.py:182-186 | the window step adds no triple |
| Snex2Params.ImagingTriple | custom_code/management/commands/ingest_observations.py:170-174 | on an imaging row the translated name of position `i` holds that position's three conversions when nothing later reuses the key |
| Snex2Params.MuscatShape | custom_code/management/commands/ingest_observations.py:176-180 | a MuSCAT result has guiding `ON`, `ASYNCHRONOUS` exposures and every raw filter's diffuser `out` |
| Snex2Params.MuscatFieldsValues | custom_code/management/commands/ingest_observations.py:176-180 | the MuSCAT step writes those values |
| Snex2Params.RoutedAgree | custom_code/management/commands/ingest_observations.py:137-140 | the two `repeating` choices differ in `cadence_strategy` only |
| Snex2Params.ExposuresAgree | custom_code/management/commands/ingest_observations.py:156-180 | the instrument branch preserves that agreement and fails alike |
| Snex2Params.WindowAgree | custom_code/management/commands/ingest_observations.py:182-186 | the window step preserves that agreement |
| Snex2Params.RepeatingOnlyStrategy | custom_code/management/commands/ingest_observations.py:137-140 | `repeating` decides `cadence_strategy` and nothing else: both calls succeed or fail together, fail with the same error, and agree on every other key |
| Snex2Params.WindowAfter | custom_code/management/commands/ingest_observations.py:182-186 | the sequence-window assignments applied to two agreeing outcomes leave them agreeing |
| Snex2Params.SplitThree | custom_code/management/commands/ingest_observations.py:165-168 | three comma-free parts joined by commas split back into exactly those three parts |
| Snex2Params.RealsOfDigits | custom_code/management/commands/ingest_observations.py:174 | three runs of digits convert, position by position, to their decimal values |
| Snex2Params.ExampleTriples | custom_code/management/commands/ingest_observations.py:170-174 | `g,r,i` writes `gp`, `rp`, `ip`; `g,gp` writes `gp` once, the second wins; a short column is the `IndexError` |
| Snex2Params.LaterStepsKeepKeys | custom_code/management/commands/ingest_observations.py:156-186 | later steps only add keys |
| Snex2Params.FixedKeysPresent | custom_code/management/commands/ingest_observations.py:134-154 | every fixed key is in a successful result |
| Ingest.SplitByExisting | custom_code/management/commands/ingest_observations.py:232-242 | the split loop yields the new and the existing rows of the specification |
| Ingest.ResolveTracking | custom_code/management/commands/ingest_observations.py:290-327 | the log-entry loop equals its specification |
| Ingest.ProcessRow | custom_code/management/commands/ingest_observations.py:250-288 | one row's body equals its specification |
| Ingest.ProcessRows | custom_code/management/commands/ingest_observations.py:250-332 | one list's loop equals its specification |
| Ingest.GetSequencesForTarget | custom_code/management/commands/ingest_observations.py:191-334 | the whole function equals its specification |
| Ingest.ExistingObs | custom_code/management/commands/ingest_observations.py:354-359 | `existing_obs` is the parsed group names |
| Ingest.Snex1Groups | custom_code/management/commands/ingest_observations.py:361-365 | `snex1_groups` is the group table |
| Ingest.ProcessTargets | custom_code/management/commands/ingest_observations.py:371-373 | the loop over targets equals its specification |
| Ingest.Handle | custom_code/management/commands/ingest_observations.py:344-373 | `handle` equals its specification |
| Ingest.OnetimeContent | custom_code/management/commands/ingest_observations.py:195-206 | the one-time query holds exactly the approved autostop rows of the target |
| Ingest.RepeatingContent | custom_code/management/commands/ingest_observations.py:208-219 | the repeating query holds exactly the approved non-autostop rows of the target |
| Ingest.SplitPartition | custom_code/management/commands/ingest_observations.py:232-242 | the split is a partition of the query result: new rows are those whose id names no group |
| Ingest.SplitCounts | custom_code/management/commands/ingest_observations.py:232-242 | the two lists together are a permutation of the input |
| Ingest.SplitSides | custom_code/management/commands/ingest_observations.py:232-242 | a row lands on the side its id decides |
| Ingest.AllExisting | custom_code/management/commands/ingest_observations.py:232-242 | when every id names a group, nothing is new |
| Ingest.TrackedEntriesContent | custom_code/management/commands/ingest_observations.py:284 | the log query holds exactly the row's entries with a positive tracking number |
| Ingest.ActiveUntilEnd | custom_code/management/commands/ingest_observations.py:258-261 | a cadence is active while its end is unset, zero or ahead; once inactive it stays so |
| Ingest.GroupNamesAppend | custom_code/management/commands/ingest_observations.py:270 | group names distribute over appended groups |
| Ingest.RowIdsContent | custom_code/management/commands/ingest_observations.py:270 | every row's `str(id)` names a group of its list |
| Ingest.GrowsTrans | custom_code/management/commands/ingest_observations.py:248-332 | the state only grows, transitively |
| Ingest.SettledMono | custom_code/management/commands/ingest_observations.py:300-311 | a row settled under some known ids stays settled under more |
| Ingest.WithWindowTwice | custom_code/management/commands/ingest_observations.py:301-302 | a later entry's window replaces an earlier one |
| Ingest.TrackEntriesOkIff | custom_code/management/commands/ingest_observations.py:290-298 | the entry loop fails exactly when a tracking number gets no answer, with the first such number |
| Ingest.RecordIdsAppend | custom_code/management/commands/ingest_observations.py:312 | a built record adds its observation id |
| Ingest.ResolveBookkept | custom_code/management/commands/ingest_observations.py:300-319 | one answer keeps ids unique, positive and new |
| Ingest.TrackEntriesEffect | custom_code/management/commands/ingest_observations.py:290-319 | the loop writes only records, one per positive id not yet known, with the row's parameters, that entry's window and the groups its mask selects; afterwards every id is known |
| Ingest.FromEntryWiden | custom_code/management/commands/ingest_observations.py:290-319 | a record built for a later entry, over the carried window and with more ids known, is one built for an entry of the whole loop |
| Ingest.TrackEntriesBookkept | custom_code/management/commands/ingest_observations.py:290-319 | the loop keeps ids unique, positive and new |
| Ingest.TrackEntriesSettled | custom_code/management/commands/ingest_observations.py:300-311 | entries whose ids are all known write nothing |
| Ingest.RowStepOkIff | custom_code/management/commands/ingest_observations.py:263-298 | a row fails exactly when its parameters fail (that error) or a tracking number gets no answer |
| Ingest.RowStepEffect | custom_code/management/commands/ingest_observations.py:258-319 | a row of a new list adds one group named after its id, active as its end says, with its list's strategy; a row of an existing list adds none; afterwards the row is settled |
| Ingest.RowStepGroups | custom_code/management/commands/ingest_observations.py:269-276 | the group names a row adds |
| Ingest.RowStepBookkept | custom_code/management/commands/ingest_observations.py:250-330 | a row keeps ids unique and new |
| Ingest.RowStepSettled | custom_code/management/commands/ingest_observations.py:269-311 | a settled row of an existing list changes nothing |
| Ingest.RowsStepOkIff | custom_code/management/commands/ingest_observations.py:250-332 | a list fails exactly when one of its rows is not resolvable |
| Ingest.RowsStepSettles | custom_code/management/commands/ingest_observations.py:250-332 | after a list every row of it is settled |
| Ingest.RowsStepGroups | custom_code/management/commands/ingest_observations.py:269-276 | a new list adds one group per row, named by the ids in order; an existing list adds none |
| Ingest.RowsStepBookkept | custom_code/management/commands/ingest_observations.py:250-332 | a list keeps ids unique and new |
| Ingest.RowsStepSettled | custom_code/management/commands/ingest_observations.py:250-332 | a settled existing list changes nothing |
| Ingest.ListsStepFour | custom_code/management/commands/ingest_observations.py:246-332 | the four lists run in order, numbered 0 to 3 |
| Ingest.ForTargetOkIff | custom_code/management/commands/ingest_observations.py:191-334 | a target fails exactly when one of its approved sequences cannot be converted or resolved |
| Ingest.ForTargetSettles | custom_code/management/commands/ingest_observations.py:191-334 | after a target every approved sequence is settled |
| Ingest.ForTargetGroups | custom_code/management/commands/ingest_observations.py:226-276 | the groups a target adds are its new one-time then its new repeating sequences, each named by its id |
| Ingest.ForTargetBookkept | custom_code/management/commands/ingest_observations.py:191-334 | a target keeps ids unique and new |
| Ingest.ForTargetSettled | custom_code/management/commands/ingest_observations.py:191-334 | a target whose sequences all have groups and are settled writes nothing |
| Ingest.ForTargetDone | custom_code/management/commands/ingest_observations.py:191-334 | after a target it is done |
| Ingest.DoneMono | custom_code/management/commands/ingest_observations.py:371-373 | a done target stays done as the state grows |
| Ingest.TargetsStepDone | custom_code/management/commands/ingest_observations.py:371-373 | after the loop every target is done |
| Ingest.TargetsStepSettled | custom_code/management/commands/ingest_observations.py:371-373 | quiet targets write nothing |
| Ingest.TargetsStepBookkept | custom_code/management/commands/ingest_observations.py:371-373 | the loop keeps ids unique, positive and new |
| Ingest.TargetsStepOkIff | custom_code/management/commands/ingest_observations.py:371-373 | the loop fails exactly when some target's sequence is not resolvable |
| Ingest.ParsedNamesContent | custom_code/management/commands/ingest_observations.py:354-359 | `existing_obs` holds exactly the values of the names `int()` accepts |
| Ingest.GroupTableContent | custom_code/management/commands/ingest_observations.py:361-365 | one key per group name, holding the idcode of the last row with that name |
| Ingest.GroupTableKeys | custom_code/management/commands/ingest_observations.py:361-365 | the keys of `snex1_groups` are exactly the group names |
| Ingest.GroupTableLast | custom_code/management/commands/ingest_observations.py:361-365 | the entry of a name holds the idcode of the last row with that name |
| Ingest.HandleOkIff | custom_code/management/commands/ingest_observations.py:344-373 | the run fails exactly when some approved sequence of a chosen target cannot be converted or resolved |
| Ingest.HandleBookkept | custom_code/management/commands/ingest_observations.py:344-373 | no observation id gets two records, every recorded id is a positive number, none that SNEx2 had gets one, and the known ids at the end are those plus the recorded |
| Ingest.HandleIdempotent | custom_code/management/commands/ingest_observations.py:344-373 | a second run, after the first run's groups and records are in SNEx2, succeeds and writes nothing |
| Binning.BinSpectra | dash_spectra/util.py:1-23 | the loop equals the specification `BinSpectraSpec` |
| Binning.SumBlock | dash_spectra/util.py:12-15 | the inner loop sums one complete block, or fails with the first missing wavelength index |
| Binning.StepSums | dash_spectra/util.py:9-18 | one step's `sumx`/`sumy`: fresh means over a complete block, the previous means otherwise, or the unbound-local error at the first step |
| Binning.BinnedStep | dash_spectra/util.py:19-21 | one more step appends its block's means exactly when the mean wavelength is positive |
| Binning.OffsetMono | dash_spectra/util.py:8 | block starts grow with the step |
| Binning.FullBlocksIff | dash_spectra/util.py:9 | block `k` is complete exactly when `k < n // b` |
| Binning.StepsIff | dash_spectra/util.py:8 | step `k` runs exactly when its start is below `n` |
| Binning.OffsetShift | dash_spectra/util.py:8 | each start is `b` past the previous |
| Binning.StepsBlocks | dash_spectra/util.py:8-9 | the steps are the complete blocks plus at most one |
| Binning.DivShift | dash_spectra/util.py:8-9 | `(m + b) // b == m // b + 1` |
| Binning.OffsetIsProduct | dash_spectra/util.py:8 | the start of step `k` is `k * b` |
| Binning.FullBlocksIsDiv | dash_spectra/util.py:9 | the complete blocks number `n // b` |
| Binning.StepsIsCeil | dash_spectra/util.py:8 | the steps number `ceil(n / b)`, the length of `range(0, n, b)` |
| Binning.BinnedShape | dash_spectra/util.py:19-21 | equal output lengths, at most one pair per step, every kept wavelength positive |
| Binning.BinnedMeans | dash_spectra/util.py:9-21 | every output pair is the pair of means of one complete block |
| Binning.AllBlockMeansSnoc | dash_spectra/util.py:19-21 | appending one complete block's means keeps every output pair a pair of block means |
| Binning.BlockFits | dash_spectra/util.py:9-15 | the block a step works on lies inside the fluxes and the complete blocks |
| Binning.BinnedAllPositive | dash_spectra/util.py:8-21 | with positive mean wavelengths, after `k` steps the output has `k` pairs and step `i` emitted the means of the block it works on: block `i`, or the last complete block for steps past it |
| Binning.EmitsNext | dash_spectra/util.py:9-21 | when every earlier step emitted its own block's means, appending step `k`'s block means extends that to `k + 1` steps, and that block lies inside both inputs |
| Binning.BinSpectraResult | custom_code/templatetags/custom_code_tags.py:407-429 | a successful call: equal lengths, at most one pair per step, positive wavelengths, each pair the means of a complete block |
| Binning.TrailingBlockRepeats | dash_spectra/util.py:9-21 | a trailing incomplete block repeats the last complete block's pair |
| Binning.BlocksOfOne | dash_spectra/util.py:8-9 | with `b = 1` the blocks are the positions |
| Binning.MeanOfOne | dash_spectra/util.py:17-18 | the mean of a one-element block is that element |
| Binning.BinByOne | dash_spectra/util.py:1-23 | with `b = 1` and positive wavelengths the outputs are the inputs |
| TargetNames.GetColor | custom_code/templatetags/custom_code_tags.py:220-238 | the colour is always one of the palette's |
| TargetNames.GetColorLookup | custom_code/templatetags/custom_code_tags.py:236-237 | a colour other than black exactly when both lookups succeed and the family is not `other`, and then it is that family's colour |
| TargetNames.PrefixLengths | custom_code/templatetags/custom_code_tags.py:1026-1039 | the prefix-rewriting branches only see names long enough for the prefix |
| TargetNames.SmartNameList | custom_code/templatetags/custom_code_tags.py:1019-1045 | the loop equals the specification `SmartNames` of the name then the aliases, has no duplicate and has at most one name per input |
| TargetNames.SmartStepGrows | custom_code/templatetags/custom_code_tags.py:1023-1043 | one step keeps what was collected and adds at most one new name; a designated name is present afterwards |
| TargetNames.SmartNamesDistinct | custom_code/templatetags/custom_code_tags.py:1023-1045 | no duplicates and never more names than given |
| TargetNames.SmartNamesPrefix | custom_code/templatetags/custom_code_tags.py:1023-1045 | first-occurrence order: the names from a prefix of the list stay at the front |
| TargetNames.SmartNamesKeepDesignated | custom_code/templatetags/custom_code_tags.py:1024-1025 | every name holding `SN `, `AT ` or `ZTF` is listed verbatim |
| TargetNames.UpperPrefixValue | custom_code/templatetags/custom_code_tags.py:1031 | the upper-cased prefix of `sn`/`SN` is `SN` and of `at`/`AT` is `AT` |
| TargetNames.SpacingSkipsFirst | custom_code/templatetags/custom_code_tags.py:1024-1029 | a name `sn`, `at`, `SN` or `AT` followed by a digit and then digits and lower-case letters takes neither of the first two branches |
| TargetNames.SpacingBranch | custom_code/templatetags/custom_code_tags.py:1030-1031 | such a name passes the third branch's test (a bare prefix, not ATLAS-like) and its new name is the upper-cased prefix, a space and the rest |
| TargetNames.SpacingStep | custom_code/templatetags/custom_code_tags.py:1030-1033 | one loop step on such a name, not yet listed, appends the spaced form unless it is already listed |
| TargetNames.SpacedDesignated | custom_code/templatetags/custom_code_tags.py:1024-1025 | the spaced form `SN ...`/`AT ...` is kept verbatim by the first branch |
| TargetNames.SmartNamesSpacing | custom_code/templatetags/custom_code_tags.py:1030-1033 | `sn2021abc`, `at2021abc`, `SN2021abc` and `AT2021abc` are listed as `SN 2021abc` or `AT 2021abc`, and after that spaced form the bare one adds nothing |
| TargetNames.FindName | custom_code/templatetags/custom_code_tags.py:1374-1378 | a found name is never empty, so `not bestname` means "not found" |
| TargetNames.FindNameFirst | custom_code/templatetags/custom_code_tags.py:1374-1378 | `find_name` gives the first qualifying name, spaced, and fails exactly when none qualifies |
| TargetNames.QualifiedShape | custom_code/templatetags/custom_code_tags.py:1376-1377 | a qualifying name starts with the prefix, case-folded, and its spaced form starts with the prefix and a space |
| TargetNames.FindNameIn | custom_code/templatetags/custom_code_tags.py:1374-1378 | a name `find_name` returns is the spaced form of a listed name that qualifies |
| TargetNames.GetBestName | custom_code/templatetags/custom_code_tags.py:1374-1387 | the best name is the target's own name or the spaced form of one of its names that qualifies as `SN` or `AT` |
| TargetNames.BestNameShape | custom_code/templatetags/custom_code_tags.py:1380-1387 | `SN ...` when some name qualifies for `SN`, else `AT ...` when some name qualifies for `AT`, else the target's name |
| TargetNames.AtlasNeverQualifies | custom_code/templatetags/custom_code_tags.py:1376 | an `ATLAS...` name never qualifies |
| TargetNames.BestNameLower | custom_code/templatetags/custom_code_tags.py:1372-1387 | `sn2021abc` gives `SN 2021abc` |
| TargetNames.BestNameSpaced | custom_code/templatetags/custom_code_tags.py:1377 | `SN 2021abc` gives `SN  2021abc`, with two spaces |
| TargetNames.BestNameAtlas | custom_code/templatetags/custom_code_tags.py:1384-1385 | an ATLAS name alone gives itself |
| ObservingRuns.RunDateOfName | custom_code/templatetags/custom_code_tags.py:1457-1462 | `<telescope>_<8 digits>` carries the date its digits spell, when it exists |
| ObservingRuns.ObservingRunLists | custom_code/templatetags/custom_code_tags.py:1450-1491 | both filters' loops equal the specification `RunsSpec` |
| ObservingRuns.ScanFailureStays | custom_code/templatetags/custom_code_tags.py:1467-1468 | once the loop raises, the whole call has raised |
| ObservingRuns.ScanOkIff | custom_code/templatetags/custom_code_tags.py:1453-1468 | the loop raises exactly when some run list's name has no valid date |
| ObservingRuns.AllDatedSnoc | custom_code/templatetags/custom_code_tags.py:1454-1462 | all lists are dated exactly when the earlier ones and the last one are |
| ObservingRuns.ScanKeeps | custom_code/templatetags/custom_code_tags.py:1454-1486 | with every list dated, a list is kept exactly when it is a run list whose date is on the chosen side of today |
| ObservingRuns.RunListsDated | custom_code/templatetags/custom_code_tags.py:1455-1462 | the run lists are input lists other than `Interesting Targets`, and they are dated |
| ObservingRuns.RunsPartition | custom_code/templatetags/custom_code_tags.py:1463-1485 | upcoming and past runs together are the run lists, each in exactly one |
| ObservingRuns.RunsFallback | custom_code/templatetags/custom_code_tags.py:1467-1491 | a list without a valid date makes both filters return the input unchanged |
| ObservingRuns.InterestingTargets | custom_code/templatetags/custom_code_tags.py:1494-1499 | the answer is one of the lists and is named `Interesting Targets`, and there is none exactly when no list has that name |
| ObservingRuns.InterestingFirst | custom_code/templatetags/custom_code_tags.py:1495-1499 | the first list named `Interesting Targets`, and none exactly when no list is so named |
| FluxExtrema.CollectSampleFluxes | dash_spectra/templatetags/dash_spectra_tags.py:26-28 | the per-sample loop equals its specification |
| FluxExtrema.SampleFailureStays | dash_spectra/templatetags/dash_spectra_tags.py:26-28 | once a sample fails, the whole loop fails with that error |
| FluxExtrema.CalculateFluxExtrema | dash_spectra/templatetags/dash_spectra_tags.py:8-32 | the function equals the specification `ExtremaSpec` |
| FluxExtrema.DashSpectra | dash_spectra/templatetags/dash_spectra_tags.py:46-108 | the combined branch equals the specification `DashSpectraSpec` |
| FluxExtrema.MaxMinBounds | dash_spectra/templatetags/dash_spectra_tags.py:29-30 | `max` is an element and bounds every element; likewise `min` |
| FluxExtrema.MaxMinAppend | dash_spectra/templatetags/dash_spectra_tags.py:29-30 | the maximum of a concatenation is the larger maximum; likewise the minimum |
| FluxExtrema.ExtremaAreExtrema | dash_spectra/templatetags/dash_spectra_tags.py:29-32 | one spectrum gives the extrema of the incoming values and its fluxes |
| FluxExtrema.ExtremaBounds | dash_spectra/templatetags/dash_spectra_tags.py:29-32 | the new maximum bounds every flux and the old maximum and is one of them; likewise the minimum |
| FluxExtrema.ExtremaStraddleZero | dash_spectra/templatetags/dash_spectra_tags.py:8 | from the defaults 0 and 0 the range straddles zero |
| FluxExtrema.PhotonFluxFirst | dash_spectra/templatetags/dash_spectra_tags.py:19-21 | a truthy `photon_flux` column takes precedence over `flux` |
| FluxExtrema.WidenTwice | dash_spectra/templatetags/dash_spectra_tags.py:97-99 | widening by one list then the next is widening by both |
| FluxExtrema.FoldIsGlobal | dash_spectra/templatetags/dash_spectra_tags.py:95-99 | threading the range gives the extrema of the starting values and every flux of every spectrum, and fails exactly when some spectrum's fluxes fail |
| FluxExtrema.DashSpectraRange | dash_spectra/templatetags/dash_spectra_tags.py:47-105 | no spectra gives the empty context; otherwise the range covers zero and every flux |
| Photometry.MergeComments | custom_code/processors/photometry_processor.py:35-44 | the comment loop equals the specification `MergeSpec` |
| Photometry.BuildRecords | custom_code/processors/photometry_processor.py:46-58 | one record per row, in order, each the row's fields overridden by the extras |
| Photometry.ProcessData | custom_code/processors/photometry_processor.py:15-60 | the processor equals the specification `ProcessDataSpec`: unsupported type, empty table, comment error or the pairs with the merged extras |
| Photometry.CommentRoundTrip | custom_code/processors/photometry_processor.py:37-44 | `key=value` (or `key:value` with no `=`) fills the lower-cased key with the stripped value |
| Photometry.NoDelimiterNoValue | custom_code/processors/photometry_processor.py:44 | a comment with neither `=` nor `:` has no second part |
| Photometry.MergeEffect | custom_code/processors/photometry_processor.py:36-44 | comments add no key and never overwrite a non-empty value, and every changed value comes from a comment with that keyword |
| Photometry.MergeErrorCause | custom_code/processors/photometry_processor.py:42-44 | the loop raises only on a comment with neither delimiter whose lower-cased text is a key of the input extras whose value is empty |
| Photometry.RecordFields | custom_code/processors/photometry_processor.py:50-56 | a record holds the four row fields and the extras, and each extra wins |
| Photometry.ProcessDataPairs | custom_code/processors/photometry_processor.py:17-33 | one pair per row; its timestamp is the row's unless the extras carry one; the fields handed on are the rest |
| PyText.UpperFacts | custom_code/templatetags/custom_code_tags.py:1376-1377 | `str.upper()` leaves no lower-case letter, is idempotent, and only changes case: lowering its result gives `s.lower()` |
| PyText.UpperAppend | custom_code/templatetags/custom_code_tags.py:1031 | `(a + b).upper()` is `a.upper() + b.upper()` |
| PyText.LowerFacts | custom_code/processors/photometry_processor.py:42 | `str.lower()` leaves no upper-case letter, is idempotent, and only changes case: raising its result gives `s.upper()` |
| PyText.LowerAppend | custom_code/processors/photometry_processor.py:42 | `(a + b).lower()` is `a.lower() + b.lower()` |
| PyText.Split | custom_code/management/commands/ingest_observations.py:165-168 | `str.split(sep)` yields at least one part |
| PyText.SplitHasSecond | custom_code/processors/photometry_processor.py:44 | a second part exists exactly when the separator occurs |
| PyText.SplitNoSep | custom_code/templatetags/custom_code_tags.py:1458 | without the separator the split is the whole string |
| PyText.SplitCons | custom_code/templatetags/custom_code_tags.py:1458 | a separator-free first part splits off |
| PyText.SplitPartsFree | custom_code/management/commands/ingest_observations.py:165 | no part holds the separator |
| PyText.JoinSplit | custom_code/management/commands/ingest_observations.py:165 | joining the parts gives back the string |
| PyText.SplitJoin | custom_code/management/commands/ingest_observations.py:165 | splitting a join of separator-free parts gives back the parts |
| PyText.ParseIntOfIntToString | custom_code/management/commands/ingest_observations.py:270-357 | a group named `str(id)` parses back to `id` |
| PyText.ParseIntOfDigits | custom_code/templatetags/custom_code_tags.py:1459-1461 | `int()` of a run of digits is its decimal value |
| PyText.ParseFloatOfDigits | custom_code/management/commands/ingest_observations.py:143 | `float()` of a run of digits is its decimal value |
| PyText.NatToStringValue | custom_code/management/commands/ingest_observations.py:270 | `str(n)` spells `n` |
| PyText.StripNoSpace | custom_code/processors/photometry_processor.py:44 | `strip()` leaves a string without spaces unchanged |
| PyText.ContainsLength | custom_code/templatetags/custom_code_tags.py:1024-1038 | `t in s` needs `t` no longer than `s` |
| PyText.NotContains | custom_code/templatetags/custom_code_tags.py:1024-1038 | a string with a character absent from `s` is not in `s` |
| PyText.NotContainsFirst | custom_code/templatetags/custom_code_tags.py:1024-1038 | a non-empty needle whose first character appears at no starting position of `s` is not in `s` |
| PyText.ContainsAt | custom_code/templatetags/custom_code_tags.py:1024-1038 | a contained string occurs at some index |

## Left out

- Databases, the ORM, the observation-portal API, file storage and the clock are not modelled. Their
  results are parameters: query results, log entries, the API's answers by tracking number, today's
  date, `utcnow()`, and the parsed photometry table.
- The `save()` calls, `assign_perm` and `observation_records.add` are disabled in the source. The model
  records what they would write (groups, cadences, records, granted groups) as if saving were enabled, so
  that later `in_snex2` queries see the records built earlier in the run.
- Ingest shares one `snex2_param` dictionary across a row's log entries. The model gives each record a
  snapshot, because a later entry's window replaces the earlier one completely (`WithWindowTwice`).
- Time conversions (`strftime`, Julian date to ISO time, MJD to a timezone-aware datetime) are symbolic
  values, not computed.
- Floating point is modelled as exact reals. Rounding, `inf` and `nan` are not modelled.
- `str.upper`/`str.lower` are modelled on ASCII letters only. Unicode case mapping is not.
- `IsSpace` and `IsDigit` are ASCII only. Python's `int()`, `float()` and `strip()` also accept Unicode
  digits and whitespace; those inputs are not modelled.
- The SNEx1 row's `cadence`, `moondistlimit` and `priority` are modelled as either holding a value or
  absent, in which case the `.get` default applies. A mapped row's `__dict__` holds every column, so a
  NULL column is really present with the value `None`. That raises a `TypeError` in `float(None)`
  (ingest_observations.py:136 and 147) or an `AttributeError` in `None.upper()` (line 148). These
  failures are not modelled, and neither is the failure of `int(obs.groupidcode)` on a NULL
  `groupidcode` (line 317): every other column is assumed non-NULL.
- The `print(e)` in the observing-run filters' exception handler (custom_code_tags.py:1490) is output
  only and is not modelled; the handler's `return targetlist` is.
- The `individual` branch of `dash_spectra` is not modelled: it calls the same `calculate_flux_extrema`
  on each spectrum from 0 and 0, and the rest of it only assembles template context. The redshift
  lookup is a parameter.
- FluxExtrema.CalculateFluxExtrema: a datum value is either a column of numbers or a sample dictionary.
  A bare number or string as a datum value (where `value['wavelength']` raises a `TypeError`,
  dash_spectra_tags.py:27), a truthy scalar `photon_flux` or `flux` (where `max()` raises a
  `TypeError`), and a column of strings are not expressible, so those shapes and their `TypeError`s are
  not modelled.
- `json.dumps` of the photometry fields is not modelled: the field map itself is handed on.
- The astropy table parser is not modelled. Rows arrive as `(time, filter, magnitude, error)`, and
  `len(data) < 1` is an empty row sequence.
- `DataProcessor.PLAINTEXT_MIMETYPES` and `mimetypes.guess_type` are not part of this model. The
  plain-text mimetypes are a parameter, and the guess is an optional string.
- Photometry.MergeComments: `rd_extras` values are modelled as strings, so "falsy" means the empty
  string; other falsy values such as `None` or `0` are not modelled.
- Photometry.MergeComments: Python mutates the caller's `rd_extras` dictionary in place. The model
  returns the new map, so aliasing with the caller is not captured.
- Binning: a negative `b` gives an empty `range` and so empty outputs. A zero `b` is the `ValueError`
  of `range`.
- The per-filter magnitude columns of the other template tags, the Dash apps and the spectroscopy
  processor are outside this model.
