# MyelinJ in Dafny

This project models the decision-making core of MyelinJ, an ImageJ/Jython plugin. MyelinJ measures neurite density and myelination in batches of fluorescence images.

Two source files are modelled:

- `MyelinJanalysis.py`:
  - `newUser` writes a user's settings profile as csv rows.
  - `analyse` reads the profile back, walks every experiment folder, and chooses the ImageJ operations each image goes through. It then turns white-pixel counts into percentages and folder means, writes `Results.csv` per folder, copies the table into the folder of each statistical condition, writes `Result-Summary.csv`, and builds the command line that starts the R script.
- `MyelinJ_.py`: the dialog handlers that set up such a run.
  - `getNext` moves the image cursor.
  - `Dialog1.onOK` selects the image folder and its experiments.
  - `DialogStats.onClick` and `DialogStats.onOK` build the matrix of conditions, check it, create the condition folders and record the R location.
  - `Dialog3.onEnter` chooses the channels.
  - `Dialog6.onSetanalysis` accepts a sparse-neurite threshold.

Modules, in dependency order:

| module | file | contents |
|---|---|---|
| `Text` | `text.dfy` | Python's `str`/`int` on naturals, `str` on booleans, `os.path.join`, the tokenizer of `Runtime.exec(String)` |
| `Settings` | `settings.dfy` | the rows `newUser` writes, the reading loop of `analyse`, a typed decoding with its round trip |
| `Pipeline` | `pipeline.dfy` | which ImageJ operations run, in which order, on the myelin and neurite channels |
| `Quantify` | `quantify.dfy` | percentages, means, result tables |
| `Routing` | `routing.dfy` | which condition folders receive the copy of a folder's results, paths, the R command line |
| `Batch` | `batch.dfy` | class `Analysis`: the state of `analyse`, method per loop, each proved against a step function, with lemmas about the whole run |
| `Gui` | `gui.dfy` | class `Config`: the `config` globals the handlers update, each handler proved against a function, with lemmas about the functions |

ImageJ is treated as an oracle:

- An image operation is a stage tag. The model decides which tags run and in what order, and does not model what a tag does to pixels.
- Each image's result is given as input: three pixel counts read from the final masks (bins 0 and 255 of the neurite histogram, bin 255 of the myelin histogram).
- Lines 346-347 of MyelinJanalysis.py read the pixel total through `statsneurite.histogram[0]` and `statsneurite.histogram[255]`. At that point `statsneurite` is the Java `int[]` that `getHistogram()` returned at line 335. An array has no attribute `histogram`, so Jython raises AttributeError at the first `.tif` image. The Boolean `binsRead` of `Batch.AnalyseSpec` and `Batch.Analysis.Analyse` chooses the reading:
  - `false` is the code as written. The run raises `NoHistogramField` there.
  - `true` is the evident intention: bins 0 and 255 of that histogram.
- The file system is also given as input, as an `os.walk` listing per folder.
- Files that are written become `CsvFile` values appended to the state.

Where the source crashes (ZeroDivisionError, IndexError, ValueError from `int`, AttributeError, an unbound local), the model ends the run with a `Failure` value or a `Raised` reply. No precondition excludes these cases.

## Model

| member | source | states |
|---|---|---|
| Text.NatToString | MyelinJanalysis.py:79-80 | `str(n)` is a non-empty run of digits, one digit exactly below 10, no leading zero otherwise |
| Text.ParseNat | MyelinJanalysis.py:257-258 | a digit reading succeeds exactly on non-empty all-digit texts |
| Text.DigitsValueOfNatToString | MyelinJanalysis.py:257-258 | the digits `str(n)` writes spell `n` |
| Text.ParseNatOfNatToString | MyelinJanalysis.py:257-258 | `int(str(n)) == n` for every natural `n` |
| Text.NatToStringIsZero | MyelinJanalysis.py:269 | a written number is the text "0" iff it is zero |
| Text.TrimLeft | MyelinJanalysis.py:257 | stripping leading whitespace never lengthens and leaves no leading whitespace |
| Text.TrimRight | MyelinJanalysis.py:257 | stripping trailing whitespace never lengthens and leaves no trailing whitespace |
| Text.PyIntOfDigits | MyelinJanalysis.py:257-258 | every digit string is accepted by `int` |
| Text.IsPyInt | MyelinJanalysis.py:257-258 | a text `int` accepts is, once stripped, non-empty and starts with a digit or a sign |
| Text.PyIntValue | MyelinJanalysis.py:257-258 | the value `int` returns is negative only after a minus sign, and never positive after one |
| Text.PyIntOfNatToString | MyelinJanalysis.py:257-258 | `int` accepts every rendered natural |
| Text.PyIntValueOfDigits | MyelinJanalysis.py:257-258 | on digit strings `int` returns the value the digits spell |
| Text.BoolToString | MyelinJanalysis.py:78 | the csv text of a bool is "True" iff true and "False" iff false |
| Text.PathJoinShape | MyelinJanalysis.py:242 | `os.path.join`: an absolute part replaces, otherwise prefix, suffix and exactly one separator |
| Text.TokensFrom | MyelinJanalysis.py:449 | every token of a command line is non-empty and free of whitespace |
| Text.TokensFromWord | MyelinJanalysis.py:449 | a space-free word extends the current token |
| Text.Tokens | MyelinJanalysis.py:448-449 | `Runtime.exec(String)` splits a command line into non-empty tokens without whitespace |
| Text.TokensOfJoin | MyelinJanalysis.py:448-449 | space-free words joined by single spaces tokenize back to the words |
| Settings.Encode | MyelinJanalysis.py:74-111 | two rows of seven fields, a third only for sparse neurites; the radius is written only with the cell-body option and the contrast only in dense mode |
| Settings.Row1 | MyelinJanalysis.py:74-81 | the first row has seven fields and its first two read back as the cell-body bounds |
| Settings.Row2 | MyelinJanalysis.py:82-95 | the second row has seven fields and its last is "True" iff the cell-body option is on |
| Settings.Row3 | MyelinJanalysis.py:97-105 | the sparse row has seven fields and fields 3 and 4 read back as the sparse threshold bounds |
| Settings.NewUser | MyelinJanalysis.py:74-111 | the rows `newUser` builds are the profile `Encode` describes |
| Settings.NewUserRow1 | MyelinJanalysis.py:74-81 | the first row, field by field |
| Settings.NewUserRow2 | MyelinJanalysis.py:82-95 | the second row, with the cell-body and sparse branches |
| Settings.NewUserRow3 | MyelinJanalysis.py:97-105 | the sparse row |
| Settings.ReadSettings | MyelinJanalysis.py:223-230 | the reading loop yields the first seven fields of each row in order, or an IndexError on a shorter row |
| Settings.Firsts | MyelinJanalysis.py:223-230 | seven fields per row |
| Settings.Flatten | MyelinJanalysis.py:223-230 | the read succeeds iff every row has at least seven fields, then seven per row; otherwise the IndexError |
| Settings.FirstsAt | MyelinJanalysis.py:223-230 | field `7k+j` of the flat list is field `j` of row `k` |
| Settings.FlattenAt | MyelinJanalysis.py:223-230 | the same for a successful read |
| Settings.EncodeFlattenLength | MyelinJanalysis.py:74-111 | a profile written by `newUser` reads back to 21 fields in sparse mode and 14 otherwise, so "more than 14" means sparse |
| Settings.EncodeFlattenFields | MyelinJanalysis.py:74-111 | which setting lands at each index of the list `analyse` reads |
| Settings.EncodeFlattenRows | MyelinJanalysis.py:107-111 | the flat list is the written rows laid end to end |
| Settings.Canonical | MyelinJanalysis.py:83-94 | the settings a write preserves: radius only with cell bodies, contrast only in dense mode |
| Settings.ParseField | MyelinJanalysis.py:257-258 | a field reads iff `int` accepts it and the value is not negative, and then to that value; it is refused as not numeric exactly when `int` would raise ValueError |
| Settings.ParseFieldAsInt | MyelinJanalysis.py:257-258 | `" +4\n"` reads as 4, `"-1"` is refused as negative, `"4_0"` as not a number |
| Settings.Decode | MyelinJanalysis.py:223-328 | a flat list of the wrong length is refused, sparse mode is "longer than 14", booleans are the text "True" |
| Settings.DecodeEncode | MyelinJanalysis.py:74-111 | reading back what `newUser` wrote gives the canonical settings |
| Settings.EncodeCanonical | MyelinJanalysis.py:83-94 | writing depends only on the canonical form, which is idempotent |
| Settings.RoundTrip | MyelinJanalysis.py:74-111 | for canonical settings, write then read is the identity |
| Pipeline.SelectedEntries | MyelinJanalysis.py:269-328 | each operation that runs comes from the step at its own slot and that step's condition held |
| Pipeline.SelectedComplete | MyelinJanalysis.py:269-328 | every step whose condition holds runs |
| Pipeline.SelectedOrdered | MyelinJanalysis.py:269-328 | operations run in source order |
| Pipeline.SelectedBySlot | MyelinJanalysis.py:269-328 | an operation runs iff its slot holds it with a true condition, and in slot order |
| Pipeline.SelectedAppend | MyelinJanalysis.py:269-328 | the selection of a concatenation is the concatenation of the selections |
| Pipeline.MyelinSlot | MyelinJanalysis.py:269-310 | twelve myelin steps |
| Pipeline.MyelinSwitchesOf | MyelinJanalysis.py:269-310 | the myelin branches test fields 0, 1, 7 and 11 against "0": cell bodies iff a bound is not "0", outliers iff the radius is not "0", opening iff the minimum is not "0" |
| Pipeline.MyelinGuards | MyelinJanalysis.py:269-310 | the twelve myelin steps, each at its own slot in source order, each with the condition it runs under |
| Pipeline.MyelinStages | MyelinJanalysis.py:269-310 | the myelin operations that run are exactly the steps with a true condition, in source order |
| Pipeline.MyelinStagesGating | MyelinJanalysis.py:269-310 | per operation, when it runs: the cell-body threshold with its own bounds, outlier removal, CLAHE, neurite subtraction excluding the rolling ball, Frangi, 8-bit and mask always, opening, and inversion last |
| Pipeline.MyelinPlan | MyelinJanalysis.py:269-310 | as written, the cell-body mask is never subtracted, though it is made whenever a bound is not "0" |
| Pipeline.MyelinPlanIntended | MyelinJanalysis.py:269-310 | as intended, the mask is subtracted exactly when one is made |
| Pipeline.Without | MyelinJanalysis.py:300-301 | removing an operation leaves every other element and no copy of it |
| Pipeline.MyelinStagesWithout | MyelinJanalysis.py:300-301 | switching the subtraction off is the same as removing it from the operation list |
| Pipeline.MyelinPlanDropsSubtraction | MyelinJanalysis.py:300-301 | the plan as written is the intended plan minus the subtraction, and differs from it iff a cell-body mask is made |
| Pipeline.NeuriteSlot | MyelinJanalysis.py:313-328 | seven neurite steps |
| Pipeline.NeuriteSwitchesOf | MyelinJanalysis.py:313-328 | sparse mode iff the list is longer than 14; dense mode runs neither CLAHE nor the rolling ball; field 12 is the contrast, field 3 the despeckle switch |
| Pipeline.NeuriteGuards | MyelinJanalysis.py:313-328 | the seven neurite steps, each at its own slot in source order, each with the condition it runs under |
| Pipeline.NeuriteStages | MyelinJanalysis.py:313-328 | the neurite operations that run are exactly the steps with a true condition, in source order |
| Pipeline.NeuriteStagesGating | MyelinJanalysis.py:313-328 | sparse operations only in sparse mode, dense operations only otherwise, despeckle last when it runs |
| Pipeline.NeuritePlan | MyelinJanalysis.py:313-328 | sparse mode iff more than 14 fields; it thresholds with fields 16-18; despeckle iff field 3 is "True" |
| Pipeline.SwitchesOfEncoded | MyelinJanalysis.py:269-328 | on a written profile the string tests of `analyse` mean the settings that were written |
| Pipeline.PlansOfEncoded | MyelinJanalysis.py:269-328 | the operations that run on a written profile follow the user's options |
| Pipeline.ConversionsOfEncoded | MyelinJanalysis.py:257-320 | on a written profile every `int()` of the image steps succeeds iff the opening minimum is "0" or an integer |
| Quantify.PercentShare | MyelinJanalysis.py:354 | `x1/x2*100` is the share scaled to 100, non-negative, at most 100 when part <= whole |
| Quantify.Percentages | MyelinJanalysis.py:354-360 | the comprehension over `zip` fails iff some divisor is zero, and is as long as the shorter list |
| Quantify.Sum | MyelinJanalysis.py:355-361 | a sum of non-negative values is non-negative |
| Quantify.PercentagesAt | MyelinJanalysis.py:354-360 | entry `i` is the share of `parts[i]` in `wholes[i]` |
| Quantify.Mean | MyelinJanalysis.py:355-361 | `sum/len` is defined iff the list is not empty |
| Quantify.MeanTimesCount | MyelinJanalysis.py:355-361 | mean times count is the sum |
| Quantify.SumBetween | MyelinJanalysis.py:355-361 | a sum of values in [lo, hi] lies between n*lo and n*hi |
| Quantify.MeanBetween | MyelinJanalysis.py:355-361 | a mean lies between the bounds of its values |
| Quantify.Rows | MyelinJanalysis.py:363-382 | a results table is three rows, each led by its heading, then the values in order |
| Quantify.ResultsTable | MyelinJanalysis.py:363-382 | the first row of `Results.csv` is "Image names" and then one name per image, in order |
| Quantify.SummaryTable | MyelinJanalysis.py:419-428 | the first row of `Result-Summary.csv` is "Folder name" and then one name per folder, in order |
| Quantify.Repeat | MyelinJanalysis.py:350 | `[x]*n` has `n` copies of `x` |
| Quantify.FolderFigures | MyelinJanalysis.py:349-362 | a folder's figures exist iff it has an image, the pixel total is positive and every image has neurite pixels |
| Quantify.FolderFiguresValues | MyelinJanalysis.py:349-362 | the per-image myelination and density percentages and their means |
| Quantify.FolderMeansBounded | MyelinJanalysis.py:349-362 | densities and myelinations, and their means, lie in [0, 100] when the counts nest |
| Quantify.OneImageFolder | MyelinJanalysis.py:349-362 | a worked folder: 10% density, 25% myelination |
| Routing.RouteFrom | MyelinJanalysis.py:394-410 | every target is a condition index |
| Routing.StatsTargets | MyelinJanalysis.py:394-410 | every target is a condition index |
| Routing.RouteStats | MyelinJanalysis.py:394-410 | the nested loop yields the conditions given a copy, or an IndexError |
| Routing.ScanCondition | MyelinJanalysis.py:395-410 | the inner loop stops at the first match, a row end (IndexError) or the width of condition 0 |
| Routing.ScanRow | MyelinJanalysis.py:395-396 | a match lies in the scanned range; IndexError only for a row shorter than the width; otherwise no scanned entry names the folder |
| Routing.ConditionsFrom | MyelinJanalysis.py:394-410 | intended targets: every one is a condition, from `y` on, that lists the folder |
| Routing.ConditionsFromComplete | MyelinJanalysis.py:394-410 | and every condition from `y` on that lists the folder is an intended target |
| Routing.ScanRowWithin | MyelinJanalysis.py:395-396 | a scan inside the row matches iff the scanned part lists the folder |
| Routing.ScanRowShort | MyelinJanalysis.py:395-396 | a scan past a shorter row matches early or raises IndexError |
| Routing.RouteFromUniform | MyelinJanalysis.py:394-410 | with conditions of equal length the loop routes as intended |
| Routing.StatsTargetsUniform | MyelinJanalysis.py:394-410 | the same from the first condition |
| Routing.ConditionsFromSingle | MyelinJanalysis.py:394-410 | a folder listed by one condition goes to that condition alone |
| Routing.IntendedTargetsSingle | MyelinJanalysis.py:394-410 | the same from the first condition |
| Routing.LongerConditionTruncated | MyelinJanalysis.py:395 | a folder listed past the width of condition 0 is not copied |
| Routing.ShorterConditionOverrun | MyelinJanalysis.py:395-396 | a condition shorter than condition 0 raises IndexError |
| Routing.ScanRowCases | MyelinJanalysis.py:395-396 | for any lengths, the scan of one condition matches iff its scanned entries list the folder, and otherwise raises IndexError iff the condition is shorter than the width |
| Routing.RouteFromIndexError | MyelinJanalysis.py:394-410 | as written, for any lengths: IndexError iff some condition is shorter than the width and does not list the folder |
| Routing.RouteFromTargets | MyelinJanalysis.py:394-410 | as written, for any lengths: condition `k` gets a copy iff its scanned entries list the folder and no earlier condition was run off |
| Routing.RouteFromAscending | MyelinJanalysis.py:394-410 | the copies go in condition order |
| Routing.RouteFromWide | MyelinJanalysis.py:394-410 | when no condition is shorter than the width: no IndexError, and the copies go to the conditions whose first `width` entries list the folder |
| Routing.StatsTargetsRule | MyelinJanalysis.py:394-410 | the three previous facts with the width of condition 0 |
| Routing.RootMarkerRoutedNowhere | MyelinJanalysis.py:396 | the single-experiment marker `1` never equals a folder name |
| Routing.RootMarkerScansNothing | MyelinJanalysis.py:396 | the same for one condition |
| Routing.RootMarkerNoTargets | MyelinJanalysis.py:396 | the same for the whole scan |
| Routing.StatsPathShape | MyelinJanalysis.py:399-402 | a copy lands under `statistical analysis/` and is called `<folder>.csv` |
| Routing.StatsFolder | MyelinJ_.py:731 | the stats folder is the image folder followed by `/statistical analysis` |
| Routing.RscriptCommand | MyelinJanalysis.py:448 | the command line is R, the script and the stats folder joined by single spaces |
| Routing.RscriptArgv | MyelinJanalysis.py:448 | the intended argument vector: R, the script, the stats folder |
| Routing.CommandTokensIntended | MyelinJanalysis.py:448-449 | without spaces in its parts the command splits into that vector |
| Routing.CommandSplitsStatsFolder | MyelinJanalysis.py:448-449 | the stats folder always holds a space, so the script gets a broken path |
| Batch.ResultsPathShape | MyelinJanalysis.py:375-377 | `Results.csv` is written inside the folder being analysed |
| Batch.SummaryPathShape | MyelinJanalysis.py:430-436 | the summary lies in the image folder |
| Batch.FolderNames | MyelinJanalysis.py:421-422 | one heading per folder |
| Batch.FolderNamesAt | MyelinJanalysis.py:421-422 | heading `i` is folder `i`'s name |
| Batch.Copies | MyelinJanalysis.py:394-410 | one copy per target condition |
| Batch.CopiesAt | MyelinJanalysis.py:397-409 | copy `k` goes to its condition's folder with the folder's table |
| Batch.Routes | MyelinJanalysis.py:391-410 | the targets of a folder are condition indices |
| Batch.ImageStep | MyelinJanalysis.py:251-347 | one walked file: only a `.tif` image can raise, and it raises unless the settings are accepted and the bins are read; no file is written and no mean changes |
| Batch.WalkStepAligned | MyelinJanalysis.py:250-347 | a walk keeps the three per-image lists aligned, writes nothing and raises only what an image raises |
| Batch.FinishStep | MyelinJanalysis.py:349-417 | the end of a folder only appends files; on success it clears the lists and appends one mean of each kind |
| Batch.FolderStep | MyelinJanalysis.py:234-417 | one iteration never raises the errors of the settings read, and on success leaves the lists empty |
| Batch.FolderStepAligned | MyelinJanalysis.py:234-417 | one iteration keeps the lists aligned |
| Batch.FoldersStep | MyelinJanalysis.py:234-417 | the folder loop keeps the three per-image lists aligned and never raises the errors of the settings read |
| Batch.FolderThenRest | MyelinJanalysis.py:234-417 | one folder then the rest: the same |
| Batch.Summarised | MyelinJanalysis.py:419-428 | the summary appends exactly one file, `Result-Summary.csv` in the image folder, clears the lists and keeps the means |
| Batch.AnalyseSpec | MyelinJanalysis.py:161-449 | the R command is issued iff the run finishes and stats were asked for; the run fails with `ShortSettingsRow` iff flattening the settings rows fails |
| Batch.Analysis.constructor | MyelinJanalysis.py:211-217 | the locals start empty and no command is issued |
| Batch.Analysis.MeasureImage | MyelinJanalysis.py:251-347 | one image: with bad settings it fails; otherwise its name and counts are recorded, and then it fails with the AttributeError unless the bins are read |
| Batch.Analysis.WalkFolder | MyelinJanalysis.py:250-347 | the walk of one folder |
| Batch.Analysis.WriteCopies | MyelinJanalysis.py:394-410 | the copies are appended and nothing else changes |
| Batch.Analysis.RecordFolder | MyelinJanalysis.py:355-410 | the means are recorded, `Results.csv` and the copies are written, an IndexError is reported |
| Batch.Analysis.FinishFolder | MyelinJanalysis.py:349-417 | the figures of a folder, or the failure that stops the run |
| Batch.Analysis.CloseFolder | MyelinJanalysis.py:374-417 | writing and clearing the lists |
| Batch.Analysis.AnalyseFolder | MyelinJanalysis.py:234-417 | one iteration of the folder loop |
| Batch.Analysis.AnalyseFolders | MyelinJanalysis.py:234-417 | the folder loop |
| Batch.Analysis.Summarise | MyelinJanalysis.py:419-442 | the new state is `Summarised` of the old: one summary file appended at the summary path, the per-image lists emptied, the two run-level lists of means kept; the command is unchanged |
| Batch.Analysis.Analyse | MyelinJanalysis.py:161-449 | the whole run, with the pixel total read as `binsRead` says: read, loop, summary, R command |
| Batch.TifListsAligned | MyelinJanalysis.py:250-253 | names and counts come one per `.tif` file; the last `.tif` is among the files |
| Batch.TifNamesEndTif | MyelinJanalysis.py:252-253 | every recorded name ends in `.tif` |
| Batch.WalkStepCollects | MyelinJanalysis.py:250-341 | with good settings and the bins read, the walk records every `.tif` in walk order and nothing else |
| Batch.WalkStepLast | MyelinJanalysis.py:345-347 | with the bins read, the pixel total comes from the last `.tif` only; means and files are untouched |
| Batch.WalkStepRejects | MyelinJanalysis.py:257-320 | with bad settings a folder with a `.tif` fails and the state is unchanged |
| Batch.NeuritesPresentAll | MyelinJanalysis.py:354 | no ZeroDivisionError iff every image has neurite pixels |
| Batch.FolderFiguresOfSome | MyelinJanalysis.py:349-362 | a folder yields figures iff it is analysable |
| Batch.FoldersOkAll | MyelinJanalysis.py:234-417 | the remaining folders pass iff each folder does |
| Batch.FolderWrites | MyelinJanalysis.py:374-410 | a folder writes `Results.csv` into itself first, then one copy per target |
| Batch.WalkFromEmpty | MyelinJanalysis.py:250-350 | with the bins read, from cleared lists the walk yields that folder's `.tif` lists, and a total from its last image |
| Batch.FolderStepSucceeds | MyelinJanalysis.py:234-417 | a folder iteration succeeds iff the folder passes |
| Batch.FolderStepClears | MyelinJanalysis.py:415-417 | a successful iteration leaves the per-image lists empty |
| Batch.FolderStepMeans | MyelinJanalysis.py:355-362 | it appends the folder's two means |
| Batch.FolderStepWrites | MyelinJanalysis.py:374-410 | it appends the folder's files |
| Batch.RecordedContents | MyelinJanalysis.py:362-410 | `Recorded`: the two means appended, `Results.csv` written after the earlier files and followed by one file per target condition, the per-image lists kept |
| Batch.RecordedCopies | MyelinJanalysis.py:391-410 | `Recorded`: the files after `Results.csv` are the table's copies, the `k`-th in the folder of the `k`-th target condition |
| Batch.ClosedOutcome | MyelinJanalysis.py:362-417 | `Closed`: the files and means are recorded in every case; IndexError iff the routing raises; otherwise the per-image lists are emptied |
| Batch.DensityMeansFrom | MyelinJanalysis.py:361-362 | one density mean per remaining folder |
| Batch.MyelinationMeansFrom | MyelinJanalysis.py:355-356 | one myelination mean per remaining folder |
| Batch.MeansFromAt | MyelinJanalysis.py:355-362 | entry `k` is the mean of folder `i+k` |
| Batch.FoldersStepNext | MyelinJanalysis.py:234 | a successful folder hands its state to the next |
| Batch.FoldersStepUnroll | MyelinJanalysis.py:234-417 | one folder iteration, with its means and files |
| Batch.FoldersStepSucceeds | MyelinJanalysis.py:234-417 | if every folder passes, the loop succeeds with cleared lists |
| Batch.FoldersStepDensities | MyelinJanalysis.py:361-362 | the loop appends the density means in folder order |
| Batch.FoldersStepMyelinations | MyelinJanalysis.py:355-356 | the loop appends the myelination means in folder order |
| Batch.FoldersStepWrites | MyelinJanalysis.py:374-410 | the loop writes every folder's files in folder order |
| Batch.FoldersStepFails | MyelinJanalysis.py:234-417 | a failing folder stops the loop |
| Batch.FoldersStepCases | MyelinJanalysis.py:234-417 | an analysable folder hands empty lists to the rest of the loop; any other folder ends it with an exception |
| Batch.BadSettingsWriteNothing | MyelinJanalysis.py:257-320 | with bad settings no file is written |
| Batch.WalkStepNoBins | MyelinJanalysis.py:335-347 | as written, a walk with accepted settings raises the AttributeError iff the folder has a `.tif` image, and otherwise changes nothing |
| Batch.AsWrittenFirstFolder | MyelinJanalysis.py:335-349 | as written, the first folder stops the run: an unbound `whitepixels` without images, otherwise the AttributeError or the settings error; nothing is written |
| Batch.AnalyseAsWritten | MyelinJanalysis.py:161-449 | as written, a run finishes iff the settings read and there are no folders and no several experiments; it never writes a file |
| Batch.FoldersFromInitial | MyelinJanalysis.py:211-417 | from the start the loop yields every folder's means and files |
| Batch.AnalyseSucceeds | MyelinJanalysis.py:161-449 | with the bins read, the run succeeds iff the settings read, the folders pass and, for several experiments, one exists |
| Batch.AnalyseOutcome | MyelinJanalysis.py:419-449 | with the bins read: the means, the summary written only for several experiments, and the R command only for statistics |
| Batch.SingleExperimentWrites | MyelinJanalysis.py:234-417 | a single experiment writes one `Results.csv` in the image folder |
| Gui.Refs | MyelinJ_.py:421-440 | folder entries, one per folder |
| Gui.NextPosition | MyelinJ_.py:142-144 | the cursor moves one on or wraps to 0, and stays among the images |
| Gui.Advance | MyelinJ_.py:142-144 | any number of moves stays among the images |
| Gui.NamedAll | MyelinJ_.py:440 | subdirectory names become folders one for one |
| Gui.NextPositionInRange | MyelinJ_.py:142-144 | the next position stays among the images |
| Gui.AdvanceWithin | MyelinJ_.py:142-144 | before the last image each call moves one on |
| Gui.AdvanceInRange | MyelinJ_.py:142-144 | repeated calls stay among the images |
| Gui.AdvanceSplit | MyelinJ_.py:142-144 | `a+b` calls are `a` calls followed by `b` |
| Gui.AdvanceFullCycle | MyelinJ_.py:142-144 | `count` calls return to the start |
| Gui.Config.GetNext | MyelinJ_.py:129-144 | the cursor advances, wrapping to 0 |
| Gui.WalkPrefixStep | MyelinJ_.py:427-431 | the walk proceeds one directory at a time |
| Gui.DirLists | MyelinJ_.py:427-428 | one subdirectory list per directory walked, the top directory first |
| Gui.TifsOf | MyelinJ_.py:429-431 | the `.tif` files of a directory joined to it |
| Gui.WalkImages | MyelinJ_.py:427-431 | the subdirectory lists and image paths of the walk |
| Gui.Dialog1Boxes | MyelinJ_.py:415-421 | the check boxes are stored, the folder list follows the entries, and the stats error shows iff stats are asked for without several experiments |
| Gui.Dialog1Folder | MyelinJ_.py:423-431 | the missing-folder message shows iff no folder is selected; a selected folder adds its walked `.tif` paths and entries |
| Gui.Dialog1Pick | MyelinJ_.py:433-445 | messages only accumulate; the handler raises iff no entry was walked, except that the checked variant stays on a folder without images; a run starts with the image count equal to the images listed |
| Gui.Dialog1Next | MyelinJ_.py:446-460 | the stats dialog iff stats, the new-user dialog iff asked for without stats; the images are untouched |
| Gui.Dialog1 | MyelinJ_.py:414-460 | the check boxes are stored; the dialog stays only in the intended, checked variant; otherwise it raises or goes on |
| Gui.Config.ReadBoxes | MyelinJ_.py:415-421 | the check boxes are read and the entries reset |
| Gui.Config.ReadFolder | MyelinJ_.py:423-431 | no folder: ask for one; otherwise walk it |
| Gui.Config.PickFolders | MyelinJ_.py:433-445 | as written, the first entry is taken and the images are counted |
| Gui.Config.ChooseNext | MyelinJ_.py:446-460 | the next dialog: new user or stats, or run with the chosen user |
| Gui.Config.Dialog1OK | MyelinJ_.py:414-460 | the handler as written |
| Gui.Dialog1StatsError | MyelinJ_.py:417-459 | the error iff stats are asked for without several experiments; the stats dialog follows iff stats |
| Gui.Dialog1Folders | MyelinJ_.py:421-445 | the folders `analyse` receives: the root marker or the top subdirectories; the images counted |
| Gui.Dialog1Raises | MyelinJ_.py:421-440 | the handler raises exactly when nothing was walked and no old entry was kept |
| Gui.NoTifFolderProceeds | MyelinJ_.py:433-436 | as written, a folder with no `.tif` goes on to the run with zero images |
| Gui.CheckedDialog1RefusesNoImages | MyelinJ_.py:433-436 | as intended, the error shows iff there are no images |
| Gui.CheckedDialog1HasImages | MyelinJ_.py:433-445 | as intended, a run starts only with images, and the cursor then stays among them |
| Gui.StatsClick | MyelinJ_.py:576-634 | the handler raises, stays or builds the matrix, whose names field has as many rows as `repeats` says; experiments and stats path are untouched |
| Gui.StaleRepeatsReadOneRow | MyelinJ_.py:577-702 | a click with "3" and then one with "1" leaves `repeats` at 1, so `onOK` reads only the first row of the three-row matrix still shown, and goes on with all six folders in that one condition |
| Gui.StatsClickBranches | MyelinJ_.py:579-634 | non-integer text raises before `repeats` changes; otherwise `repeats` takes its value; the matrix only with six experiments and two conditions, sized by the count; otherwise one message and no other change |
| Gui.Config.StatsClicked | MyelinJ_.py:576-634 | the handler, including the global `repeats` |
| Gui.SingleExperimentStatsRefused | MyelinJ_.py:417-584 | stats on a single experiment always ends with "at least six experiments" |
| Gui.Columns | MyelinJ_.py:693-702 | one folder list per condition |
| Gui.TickedUpToMembers | MyelinJ_.py:698-702 | a condition's list is as long as its ticks and holds exactly the ticked folders |
| Gui.TickedMembers | MyelinJ_.py:698-702 | the same for a whole row |
| Gui.CollectColumn | MyelinJ_.py:698-702 | the inner loop collects the ticked folders and counts them |
| Gui.Config.CollectTicks | MyelinJ_.py:693-702 | the experiments of the first `repeats` rows and their tick count, or the IndexError when there are fewer rows |
| Gui.StatsOKByCount | MyelinJ_.py:693-711 | more rows than the matrix has raises IndexError; otherwise too many ticks, too few, or accepted; the experiments are the ticked folders of the rows `repeats` names |
| Gui.StatsOK | MyelinJ_.py:693-711 | one experiments list per row `repeats` names; the typed names are stored; when it stays it makes no folder |
| Gui.SetOfDistinct | MyelinJ_.py:718-722 | a list and its set have equal size iff the list has no repeats |
| Gui.FirstUnnamed | MyelinJ_.py:741-744 | the folder loop stops at the first empty name |
| Gui.DirsUnder | MyelinJ_.py:745-746 | one folder per name under the stats folder |
| Gui.MakeConditionDirs | MyelinJ_.py:735-746 | the stats folder and the condition folders up to the first empty name |
| Gui.StatsOKMessages | MyelinJ_.py:716-759 | repeated names show an error but do not stop the handler; an empty name stops the folders; the next dialog; the stats path |
| Gui.StatsAccepted | MyelinJ_.py:712-759 | the accepted branch never stays; it raises iff no image folder is set; otherwise it makes the stats folder and one folder per name up to the first empty one |
| Gui.Config.AcceptMatrix | MyelinJ_.py:712-759 | the accepted branch |
| Gui.Config.StatsOKed | MyelinJ_.py:693-759 | the handler |
| Gui.CopiesLandInMadeFolders | MyelinJ_.py:731-746 | each copy `analyse` writes lands in a folder the dialog made |
| Gui.ConditionDirName | MyelinJ_.py:731-746 | the condition folder path is the one `analyse` writes to |
| Gui.StatsDialogCommandSplits | MyelinJ_.py:731-753 | the command line built from the dialog's paths has four tokens, not three |
| Gui.TotalByColumns | MyelinJ_.py:697-702 | the total count is the sum of the per-folder column counts |
| Gui.ColumnsTotalRow | MyelinJ_.py:697-702 | adding one condition adds its ticks |
| Gui.ColumnsTotalNoRows | MyelinJ_.py:697-702 | no conditions, no ticks |
| Gui.ColumnsTotalOnce | MyelinJ_.py:697-702 | each folder ticked once gives one tick per folder |
| Gui.AssignedOnceCounts | MyelinJ_.py:707-711 | folders ticked exactly once pass the count check |
| Gui.CountCheckAcceptsDoubleTick | MyelinJ_.py:707-711 | as written, one folder ticked twice and one unticked also pass |
| Gui.DoubleTickRoutes | MyelinJ_.py:707-711 | such a matrix copies one folder twice and another nowhere |
| Gui.ColumnsList | MyelinJ_.py:698-702 | a condition lists a folder iff its box is ticked |
| Gui.ColumnCountOne | MyelinJ_.py:697-702 | a column count of one names a single condition |
| Gui.ColumnCountZero | MyelinJ_.py:697-702 | a column count of zero names none |
| Gui.AssignedOnceRoutes | MyelinJ_.py:707-711 | as intended, every folder is copied to exactly its own condition |
| Gui.IndexOf | MyelinJ_.py:888-891 | `list.index`: the first position of the item |
| Gui.ChannelsEntered | MyelinJ_.py:887-900 | the indices recorded name the two chosen channels; the preview follows iff they differ |
| Gui.ChannelsDiffer | MyelinJ_.py:887-900 | the preview opens iff the two channels differ; else the error; the indices name the chosen channels |
| Gui.Config.ChannelsEnter | MyelinJ_.py:887-900 | the handler |
| Gui.SetAnalysisAccepts | MyelinJ_.py:1848-1857 | accepted iff the range is not (0,0) or (0,255); sets the sparse flags; otherwise no change and the error |
| Gui.SetAnalysis | MyelinJ_.py:1848-1857 | the bounds are kept; accepting turns sparse mode on and the user image off |
| Gui.Config.SetForAnalysis | MyelinJ_.py:1848-1857 | the handler |

## Left out

- Image processing itself is left out: opening, splitting, thresholding, the filters, saving JPEGs, histograms. Operations are tags (`Pipeline.MyelinStage`, `Pipeline.NeuriteStage`). The counts each image yields are inputs.
- Floating point: percentages and means are exact reals, so rounding is not modelled.
- File I/O: the model keeps the writes as values. It leaves out:
  - the opening of files;
  - `os.makedirs` and `os.path.exists`;
  - the deletion of every `.csv` in the current directory (MyelinJanalysis.py:411-414), which depends on the process's working directory;
  - the `Finished` dialog.
- Operating-system branches: the model follows the `/` branch that MyelinJ_.py and MyelinJanalysis.py take on a Mac. It leaves out the Windows branch (backslashes, and the quoting of `RscriptPath` at MyelinJ_.py:754-755) and the Linux case, where neither branch runs.
- `Runtime.exec` is modelled only through the argument vector it would build. Running R, and the script itself, are not part of this model.
- The `newUser` call inside `analysed` (MyelinJ_.py:106-127), and the files it writes, are modelled only as the rows it produces.
- Widgets and layout are reduced to the values they hold. Left out:
  - the dialog sizes and positions in `DialogStats.onClick`;
  - `dispose` and `setVisible`;
  - the other dialogs (Dialog2 to Dialog6 apart from the two handlers above);
  - the `Reset` button;
  - the previews and their image windows.
- Gui.Config: the walk of `Dialog1.onOK` and the ticked columns of `DialogStats.onOK` are built in local sequences and then stored. The model therefore does not capture a handler observing its own partial update.
- Settings.Decode: each numeric field is read as `int()` reads it: ASCII digits, an optional sign, and surrounding whitespace. Jython 2.7 refuses underscores, and so does the model. Non-ASCII digits are not modelled. A field that reads as a negative number is refused with `Negative`. `Settings` holds naturals only, but the source would go on with the negative value.
- Batch.Analysis.Analyse: an image with no neurite pixels raises ZeroDivisionError in the source (MyelinJanalysis.py:354), so the model ends the run there. The documentation speaks of excluding such an image; the model follows the code.

## Findings

| source | as written | input that shows it | evidently intended | confidence | as-written member | corrected member |
|---|---|---|---|---|---|---|
| MyelinJanalysis.py:300 | `bg is "True"` compares the boolean `bg` by identity with a string, so it never holds and the cell-body mask is never subtracted | any profile with a cell-body bound that is not "0" | subtract the mask whenever one was made | not executed | Pipeline.MyelinPlan | Pipeline.MyelinPlanIntended (with Pipeline.MyelinPlanDropsSubtraction) |
| MyelinJanalysis.py:395 | the inner loop runs to the length of condition 0 for every condition | conditions `[a,b,c]` and `[d,e,f,g]`, folder `g`: no copy; conditions `[a,b,c]` and `[d,e]`, folder `a`: IndexError | scan each condition to its own length | not executed | Routing.LongerConditionTruncated, Routing.ShorterConditionOverrun | Routing.ConditionsFrom (with Routing.ConditionsFromComplete, Routing.StatsTargetsUniform, Routing.IntendedTargetsSingle) |
| MyelinJanalysis.py:346-347 | `statsneurite.histogram[0]` reads an attribute of the `int[]` bound at line 335, which has none, so Jython raises AttributeError | any folder with a `.tif` image; a folder without one stops at the unbound `whitepixels` of line 349 | `whitepixels = statsneurite[0]` and `blackpixels = statsneurite[255]` | not executed | Batch.AnalyseAsWritten (with Batch.AsWrittenFirstFolder, Batch.WalkStepNoBins) | Batch.AnalyseSucceeds (with Batch.AnalyseOutcome), both with `binsRead` true |
| MyelinJ_.py:433 | `listAllImages is []` compares with a fresh list by identity and never holds | a selected folder with only `notes.txt` | refuse a folder without `.tif` images | not executed | Gui.NoTifFolderProceeds | Gui.CheckedDialog1RefusesNoImages (with Gui.CheckedDialog1HasImages) |
| MyelinJ_.py:707-711 | the check counts ticks in total, not per folder | six folders; folder `a` ticked in both conditions, folder `f` in none | every folder in exactly one condition | not executed | Gui.CountCheckAcceptsDoubleTick (with Gui.DoubleTickRoutes) | Gui.AssignedOnceCounts (with Gui.AssignedOnceRoutes) |
| MyelinJanalysis.py:448 | the command line is one string that `Runtime.exec` splits at whitespace, while the stats folder always ends in `statistical analysis` | any image folder | pass the stats folder as one argument | not executed | Routing.CommandSplitsStatsFolder (with Gui.StatsDialogCommandSplits) | Routing.RscriptArgv (with Routing.CommandTokensIntended) |
