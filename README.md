# CadQueryEval scoring core, modelled in Dafny

CadQueryEval asks a language model for a CadQuery program that builds a part. It then
judges the STL file the program writes against a reference mesh. This project models
the decision logic of that judgement and of the tools that read the results back:

- **Geometry** (`src/cadqueryeval/geometry.py`): the six binary checks and how each reaches
  its verdict.
  - Watertight, single component, bounding box, volume, Chamfer distance and 95th
    percentile Hausdorff distance.
  - The file and mesh gates in front of each check.
  - The staged orchestrator that fills a `GeometryCheckResult` and collects tagged error
    messages.
  - Mesh libraries are not modelled. Whatever open3d and trimesh report (triangles,
    manifoldness, clusters, volumes, sampled points, registration, distances, percentiles,
    extents) enters as fields of `MeshFile` and `Registration`.
- **Scorer** (`src/cadqueryeval/scorer.py`):
  - how the program is taken from the completion (`extract_code`);
  - the decisions of `score` (no code, timeout, failed run, missing STL, checked);
  - the Markdown report `format_check_results` writes.
- **Analyze** (`tools/analyze_results.py`):
  - `parse_sample_checks`, which reads a score explanation back into a record of verdicts;
  - the pass rates of one log (`avg_bool`);
  - the per-task counters of `format_per_task_table`;
  - the numeric task order (`task_sort_key`);
  - the provider-prefix strip of model ids.
- **Stls** (`tools/generate_stls.py`): `sanitize_filename` and the directory name of a
  model's files.
- **Protocol**: the report written by the scorer is the text the analyser parses. The
  lemmas here prove that the analyser reads back exactly the verdicts the scorer wrote.

Modules:
- `Optional`: the option type.
- `Text`: the Python string operations the source uses.
  - `strip`, `split("\n")`, `"\n".join`, `in`, `startswith`, `replace`, `str(int)`, `int(str)`.
  - Fixed-point formatting `f"{x:.4f}"`.
- `Checks`: the six binary checks.
- `Geometry`, `Scorer`, `Analyze`, `Tasks`, `ModelIds`, `Stls`, `Protocol`.

Where the source updates state step by step, the model does too. Each of the following is
a method proved equal to a specification function whose properties are lemmas:
- the orchestrator;
- the report builder;
- the explanation parser;
- the per-task counting loops.

## Model

| member | source | states |
|---|---|---|
| `Geometry.GeometryCheckResult.AllPassed` | src/cadqueryeval/geometry.py:68-80 | true exactly when all six verdicts are `Some(true)`; a `None` or `false` fails it |
| `Geometry.MeshLoadGate` | src/cadqueryeval/geometry.py:97-107 | no failure exactly when the file exists, has triangles and keeps them after cleaning; otherwise the message of the first failing gate, in source order |
| `Geometry.CheckWatertight` | src/cadqueryeval/geometry.py:93-113 | passes exactly when every gate and the manifold test pass; error present exactly when it fails, naming the first failing gate or non-manifoldness |
| `Geometry.CheckSingleComponent` | src/cadqueryeval/geometry.py:116-141 | passes exactly when the gates pass and the cluster count equals the expected count; otherwise the gate message or `Found n components, expected m` |
| `Geometry.CheckVolume` | src/cadqueryeval/geometry.py:144-183 | file gates before watertight gates, generated before reference; both volumes reported once both files exist; a zero reference passes only a zero volume; otherwise passes exactly when the relative difference in percent is within the threshold |
| `Geometry.PercentWithin` | src/cadqueryeval/geometry.py:180-181 | for a positive reference, the relative difference in percent is within the threshold exactly when the difference times 100 is within the threshold times the reference |
| `Geometry.VolumeSelfComparison` | src/cadqueryeval/geometry.py:175-183 | a closed mesh compared with itself passes the volume check for any non-negative threshold |
| `Geometry.SortedExtentsSpec` | src/cadqueryeval/geometry.py:329-330 | `sorted(extents)` is ascending and a permutation of the three extents |
| `Geometry.SortedExtentsUnique` | src/cadqueryeval/geometry.py:329-330 | extents holding the same three values sort to the same dimensions |
| `Geometry.BboxAccurate` | src/cadqueryeval/geometry.py:328-333 | a pass implies a non-negative tolerance, and that the smallest extents and the largest extents each differ by at most the tolerance |
| `Geometry.BboxOrderInvariant` | src/cadqueryeval/geometry.py:328-333 | the bounding-box verdict does not depend on the axis order of either extent triple |
| `Geometry.BboxSameDimensions` | src/cadqueryeval/geometry.py:328-333 | extents that rearrange the reference's pass for any non-negative tolerance |
| `Geometry.SumOfDistances` | src/cadqueryeval/geometry.py:316-317 | a sum of non-negative distances is non-negative, and zero exactly when every distance is zero |
| `Geometry.ChamferDistanceZero` | src/cadqueryeval/geometry.py:316-317 | the Chamfer distance of non-negative distances is non-negative, and zero exactly when all distances are zero |
| `Geometry.CheckSimilarity` | src/cadqueryeval/geometry.py:212-335 | no error exactly when the files exist, have triangles, enough points are sampled, both clouds preprocess and both distance sets are non-empty; then Chamfer, both percentiles and the bounding-box verdict are present; after an error they are absent; ICP fitness is present exactly when registration ran |
| `Geometry.VolumeRatio` | src/cadqueryeval/geometry.py:394-395 | present exactly when both volumes are present and non-zero; then ratio times reference equals generated |
| `Geometry.AppendError` | src/cadqueryeval/geometry.py:373-374 | appends `prefix + message` exactly when the message is present and non-empty; nothing else changes |
| `Geometry.RecordVolume` | src/cadqueryeval/geometry.py:388-397 | the record after the volume stage equals the volume-stage specification |
| `Geometry.RecordSimilarity` | src/cadqueryeval/geometry.py:400-416 | the record after the similarity stage equals the similarity-stage specification |
| `Geometry.PerformGeometryChecks` | src/cadqueryeval/geometry.py:338-418 | the record the stage-by-stage updates leave equals the orchestrator specification `GeometryChecks` |
| `Geometry.MissingGeneratedFile` | src/cadqueryeval/geometry.py:366-368 | without the generated file all six checks are unset, the only error names the file, and the sample fails |
| `Geometry.MissingReferenceFile` | src/cadqueryeval/geometry.py:382-385 | without the reference only the watertight and component verdicts are set, the last error names the reference, and the sample fails |
| `Geometry.BothFilesRunEveryStage` | src/cadqueryeval/geometry.py:370-416 | with both files every stage runs and records its own outcome; the watertight and component checks gate nothing |
| `Geometry.VolumeRatioRule` | src/cadqueryeval/geometry.py:394-395 | the result holds a volume ratio exactly when both files exist and both volumes are non-zero, and the ratio is their quotient |
| `Geometry.MetricVerdictRule` | src/cadqueryeval/geometry.py:410-413 | the Chamfer and Hausdorff verdicts exist exactly when their metric does, and are threshold comparisons |
| `Geometry.AllPassedMeansNoErrors` | src/cadqueryeval/geometry.py:338-418 | when all six checks pass, no stage reported an error |
| `Geometry.SelfComparisonPasses` | src/cadqueryeval/geometry.py:338-418 | a sound single-component closed mesh compared with itself, perfectly aligned, passes every check with no error |
| `Text.Strip` | src/cadqueryeval/scorer.py:41-44 | `str.strip()`: the result is a slice whose ends are not whitespace, and only whitespace was removed |
| `Text.StripIdempotent` | src/cadqueryeval/scorer.py:41-44 | stripping twice is stripping once |
| `Text.SplitLines` | tools/analyze_results.py:169 | `split("\n")` gives at least one line, and no line holds a newline |
| `Text.JoinSplit` | tools/analyze_results.py:169 | joining the lines of `split("\n")` with newlines gives the string back, so with `Text.SplitLines` the lines are exactly the newline-separated pieces |
| `Text.SplitJoin` | src/cadqueryeval/scorer.py:82 | splitting the newline-join of newline-free lines gives the lines back |
| `Text.RemoveAllAbsent` | tools/analyze_results.py:233 | `replace(p, "")` leaves a string without `p` unchanged |
| `Text.ParseNatText` | tools/analyze_results.py:439 | `int(str(n)) == n` |
| `Text.RoundHalfEven` | src/cadqueryeval/scorer.py:69 | the result is an integer nearest to the value, and on a tie (fraction exactly one half) it is the even one |
| `Text.FormatFixed` | src/cadqueryeval/scorer.py:69-75 | `f"{x:.<places>f}"`: a minus sign exactly when `x` is negative, then integer digits without a superfluous leading zero and, when `places > 0`, one point and exactly `places` digits; with the point removed the digits spell the magnitude of `x` times `10**places`, rounded half to even; so `:.4f` output has at least six characters, all digits, `-` or `.` |
| `Scorer.FirstMatchSound` | src/cadqueryeval/scorer.py:38-41 | the first match found is a match of the pattern |
| `Scorer.FirstMatchLeftmost` | src/cadqueryeval/scorer.py:38-41 | any match implies a first match that starts no later |
| `Scorer.MatchUnique` | src/cadqueryeval/scorer.py:33-36 | the non-greedy group closes at one fence only: a start fixes the match |
| `Scorer.GroupHasNoFence` | src/cadqueryeval/scorer.py:33-36 | the captured group never contains a fence |
| `Scorer.ExtractCode` | src/cadqueryeval/scorer.py:27-44 | the extracted code is empty or begins and ends with non-whitespace |
| `Scorer.ExtractPythonBlock` | src/cadqueryeval/scorer.py:33-41 | with a `python` block, the code is the stripped group of the leftmost one |
| `Scorer.ExtractGenericBlock` | src/cadqueryeval/scorer.py:33-41 | with no `python` block, the code is the stripped group of the leftmost bare fenced block |
| `Scorer.ExtractPlainText` | src/cadqueryeval/scorer.py:43-44 | with no block of either kind, the code is the whole completion stripped |
| `Scorer.ExtractEmpty` | src/cadqueryeval/scorer.py:43-44 | an empty completion gives no code |
| `Scorer.ExtractedBlockHasNoFence` | src/cadqueryeval/scorer.py:38-41 | code taken from a block holds no fence and is already stripped |
| `Scorer.ScoreSample` | src/cadqueryeval/scorer.py:101-200 | correct exactly when there is code, the checks ran and all passed; the answer is the extracted code; no code gives the no-code explanation; checked samples are explained by the report |
| `Scorer.Status` | src/cadqueryeval/scorer.py:54-57 | `N/A`, `PASS`, `FAIL` exactly for unset, passed and failed |
| `Scorer.ErrorLines` | src/cadqueryeval/scorer.py:79-80 | one `- <error>` entry per error, in order |
| `Scorer.FormatCheckResults` | src/cadqueryeval/scorer.py:47-82 | the report the appends and the join produce equals the report specification |
| `Scorer.AppendCheckLines` | src/cadqueryeval/scorer.py:59-64 | appends the six check lines after the existing entries |
| `Scorer.AppendMetric` | src/cadqueryeval/scorer.py:68-75 | appends one metric line exactly when the metric is present |
| `Scorer.AppendErrors` | src/cadqueryeval/scorer.py:77-80 | appends `- <error>` for every error, in order |
| `Scorer.ReportLayout` | src/cadqueryeval/scorer.py:47-82 | read line by line, the report is the heading and a blank line, the six check lines in fixed order, a blank line, the metrics heading and a blank line, one line per present metric, then the error section exactly when there are errors |
| `Scorer.CheckLinesInOrder` | src/cadqueryeval/scorer.py:59-64 | there are six check lines, and line `k` is the `- <label>: <status>` line of the `k`-th check |
| `Analyze.LabelCheck` | tools/analyze_results.py:160-167 | a label found in `check_map` names the check whose label it is |
| `Analyze.LabelCheckInverse` | tools/analyze_results.py:160-167 | every check's label maps back to that check |
| `Analyze.LabelsHaveNoColon` | tools/analyze_results.py:49-54 | no label holds a colon or a newline |
| `Analyze.SampleChecks.Set` | tools/analyze_results.py:176 | sets exactly the named check's entry and leaves every other entry and both flags alone |
| `Analyze.SplitOnce` | tools/analyze_results.py:172 | `split(sep, 1)` gives two parts exactly when `sep` occurs; they rejoin to the line, and the first has no `sep` |
| `Analyze.ParseSampleChecks` | tools/analyze_results.py:114-191 | the early returns and the line loop compute the parse specification `ParsedChecks` |
| `Analyze.EarlyFailures` | tools/analyze_results.py:142-157 | an execution-failure or timeout marker means neither flag is set; any marker leaves every check unset; the STL flag implies the execution flag |
| `Analyze.NoMarkerRan` | tools/analyze_results.py:129-131 | with no marker both flags stay true |
| `Analyze.FoldKeepsFlags` | tools/analyze_results.py:169-176 | the line loop never changes either flag |
| `Analyze.FoldConcat` | tools/analyze_results.py:169-176 | reading two blocks of lines is reading the first, then the second |
| `Analyze.FoldInert` | tools/analyze_results.py:169-176 | lines that set nothing leave the record unchanged |
| `Analyze.ProseLineInert` | tools/analyze_results.py:170-171 | a line that is blank or does not start with `-` once stripped sets nothing |
| `Analyze.EntryLine` | tools/analyze_results.py:170-176 | `- <name>: <value>` sets the named check exactly when the name is a label and the value is `PASS` or `FAIL` |
| `Analyze.ColonSplit` | tools/analyze_results.py:172 | a colon-free name splits off at its own `": "` |
| `Analyze.InertEntry` | tools/analyze_results.py:170-176 | an entry whose value starts with neither `PASS` nor `FAIL` sets nothing |
| `Tasks.CountPassed` | tools/analyze_results.py:289 | the count of passing samples never exceeds the number of samples |
| `Tasks.CountAll` | tools/analyze_results.py:289 | the count equals the sample count exactly when every sample passes |
| `Tasks.CountNone` | tools/analyze_results.py:289 | the count is zero exactly when no sample passes |
| `Tasks.AvgBool` | tools/analyze_results.py:285-298 | the rate lies in [0, 1], and rate times sample count equals the passing count |
| `Tasks.AvgBoolExtremes` | tools/analyze_results.py:288-289 | the rate is 1 exactly when all samples pass and 0 exactly when none does |
| `Tasks.DigitRun` | tools/analyze_results.py:438 | the leading run of digits is all digits and maximal |
| `Tasks.TaskSortKey` | tools/analyze_results.py:437-439 | an id gets a number exactly when it starts with `task` followed by a digit |
| `Tasks.TaskSortKeyNumber` | tools/analyze_results.py:437-439 | `task<n><rest>` sorts as `n` when the rest does not continue the number |
| `Tasks.InsertByKey` | tools/analyze_results.py:441 | insertion adds exactly one occurrence of the id |
| `Tasks.InsertKeepsAscending` | tools/analyze_results.py:441 | inserting into a key-ordered list keeps it key-ordered |
| `Tasks.SortTasks` | tools/analyze_results.py:441 | the sorted list is a permutation of the input, ascending by task key |
| `Tasks.SortedTaskIds` | tools/analyze_results.py:408-441 | the sorted task list holds each task id once, numbered tasks before all others |
| `Tasks.PassCountBounded` | tools/analyze_results.py:430-434 | a task's pass count never exceeds the number of models that attempted it, so each rate is at most 1 |
| `Tasks.ListedTasksAttempted` | tools/analyze_results.py:454-458 | every listed task was attempted at least once, so the `total == 0` guard never skips a row |
| `Tasks.AddPasses` | tools/analyze_results.py:432-434 | the key loop adds one to exactly the counters of the keys the entry passes |
| `Tasks.TaskCounters` | tools/analyze_results.py:403-434 | after the loops every listed task has its model count and per-key pass counts over all logs, and only listed tasks have counters |
| `Tasks.CountLog` | tools/analyze_results.py:414-434 | counting the tasks of one more log extends the running tally over the earlier logs to a tally that also covers this log |
| `Tasks.CountTask` | tools/analyze_results.py:415-434 | adds the task to the id set if needed, adds one to its model count, and adds one to each key's counter when the entry passes that key; the task is then tallied over all logs so far |
| `Tasks.NeverSeen` | tools/analyze_results.py:416-428 | a task not yet seen starts from zero counters |
| `ModelIds.ModelIdAsWritten` | tools/analyze_results.py:232-234 | the rule as written: an id with the provider prefix becomes the intended id with every further `openrouter/` removed as well; any other id is unchanged; the result is never longer than the model |
| `ModelIds.ModelId` | tools/analyze_results.py:230-234 | an id with the provider prefix is the prefix plus the result; any other id is unchanged |
| `ModelIds.ModelIdOfPrefixed` | tools/generate_stls.py:34-39 | prefixing an id and stripping gives the id back |
| `ModelIds.AsWrittenDropsInnerPrefix` | tools/analyze_results.py:232-234 | the rule as written turns `openrouter/openrouter/auto` into `auto`; the intended rule gives `openrouter/auto` |
| `ModelIds.AsWrittenAgrees` | tools/generate_stls.py:35-39 | the written and intended rules agree when the prefix does not recur after the leading one |
| `Stls.SanitizeFilename` | tools/generate_stls.py:17-21 | same length; every output character is in `[\w\-_]`; allowed characters are kept and every other becomes `_` |
| `Stls.SanitizeKeepsSafeNames` | tools/generate_stls.py:17-21 | a name of allowed characters is unchanged |
| `Stls.SanitizeIdempotent` | tools/generate_stls.py:17-21 | sanitising twice is sanitising once |
| `Stls.ModelDirectoryAsWritten` | tools/generate_stls.py:30-43 | the directory as written (every `openrouter/` removed after the prefix check): holds only allowed characters and is never longer than the intended directory |
| `Stls.ModelDirectory` | tools/generate_stls.py:30-43 | the directory as intended (only the leading `openrouter/` removed, see Findings): holds only allowed characters |
| `Stls.AsWrittenRouterDirectory` | tools/generate_stls.py:35-43 | as written, the header model `openrouter/openrouter/auto` gives the sanitised `auto` as its directory, while the intended rule gives the sanitised `openrouter/auto`, and the two differ |
| `Stls.RoutedModelDirectory` | tools/generate_stls.py:35-43 | as intended: a routed model's directory is its sanitised id without the leading prefix, whatever the id holds |
| `Stls.MissingModelDirectory` | tools/generate_stls.py:34-41 | a header without a model entry gives the same directory as an unreadable header |
| `Protocol.CheckLineAssignment` | tools/analyze_results.py:169-176 | the parser takes from a check line exactly the check and the verdict it shows, and nothing from an `N/A` line |
| `Protocol.CheckLineRead` | tools/analyze_results.py:169-176 | a check line sets its check to the verdict it shows, and an `N/A` line sets nothing |
| `Protocol.CheckBlockRead` | src/cadqueryeval/scorer.py:59-64 | the six check lines, read from the start, record every verdict of the result |
| `Protocol.TaggedErrorInert` | src/cadqueryeval/geometry.py:373-416 | a tagged error whose message starts with neither `PASS` nor `FAIL` sets nothing when parsed |
| `Protocol.ReportReadBack` | tools/analyze_results.py:114-176 | parsing the report of a check result gives both flags true and exactly the result's six verdicts, when no error reads as a check line or a marker |
| `Protocol.NoStlMarkers` | tools/analyze_results.py:143-157 | the missing-STL explanation contains none of the three earlier markers but contains its own |
| `Protocol.ExplanationReadBack` | src/cadqueryeval/scorer.py:108-142 | the explanations for no code, a timeout and a failed run parse as not executed; a missing STL parses as executed without STL |
| `Protocol.CheckedSampleReadBack` | src/cadqueryeval/scorer.py:194-200 | for a checked sample, the flags read back true and the sample was scored correct exactly when every parsed check passed |

## Left out

- Mesh I/O and geometry are inputs, not models: reading and cleaning meshes, the manifold test, clustering, volumes, point sampling, RANSAC and ICP registration, nearest-neighbour distances and percentiles all come from open3d, trimesh and numpy. Their results are fields of `MeshFile` and `Registration`. Exceptions these libraries raise (for instance `trimesh.load` on a corrupt file) are not modelled either.
- Floating point is modelled as exact reals. Rounding in the volume percentage, the ratio and the metrics is not captured.
- `Text.FormatFixed` renders `-0.0` as `0.0000`, whereas Python writes `-0.0000`.
- The `chamfer_threshold` and `hausdorff_threshold` parameters of `check_similarity` are unused in the source, and the model omits them. The verdicts on those metrics are taken in the orchestrator, as the source does.
- `hausdorff_99p` is recorded but drives no verdict, in the source as in the model.
- `errors` is always a list in `perform_geometry_checks`, so a `None` error list is not modelled.
- In `score`, the sandbox process, the temporary file and its deletion are not modelled. Nor are the two base64 read and decode failure branches (src/cadqueryeval/scorer.py:144-160) or the missing-reference branch (src/cadqueryeval/scorer.py:170-176). `Run` has no case for them; they only return an incorrect score with an explanation.
- The metric regular expressions of `parse_sample_checks` (tools/analyze_results.py:178-189) are not modelled. The model's record has no `chamfer_distance` or `hausdorff_95p` entry.
- Reading `.eval` zip archives and JSON, and building the per-sample dictionaries, are not modelled (tools/analyze_results.py:194-228). A log enters as a map from task id to parsed entry.
- The other outputs of the analyser and the STL tool are not modelled: tables, Markdown, cost and timing fields, plots and the Docker runs.
- `fetch_model_metadata.py` and `plot_results.py` are not part of this model.
- `dataset.py`, `task.py` and `prompts.py` are not part of this model.
- `Stls.ModelDirectory` models the intended rule, which strips only the leading `openrouter/`; the rule as written is `Stls.ModelDirectoryAsWritten`, and the two differ only for ids in which `openrouter/` recurs (see Findings).
- `Stls.SanitizeFilename` takes Python's Unicode `\w` as a parameter `isWord`.
- `Tasks.TaskSortKey` treats `\d` as the ASCII digits 0-9 only. Python's `\d` and `int` also accept other Unicode decimal digits.
- `Tasks.SortTasks`: `sorted` over a `set` depends on the set's iteration order for ids with equal keys. That order is an input sequence of the model, and `Tasks.SortedTaskIds` holds for every such order.
- `Protocol.ReportReadBack` takes as preconditions that no error line parses as a check line and that no early-failure marker occurs in the report. `Protocol.TaggedErrorInert` discharges the first for the tagged geometry messages. The model does not prove that every message the orchestrator produces is marker-free.

## Findings

| source | as written | input that shows it | evidently intended | confidence | as-written member | corrected member |
|---|---|---|---|---|---|---|
| tools/analyze_results.py:232-234 | after checking that the model starts with `openrouter/`, `replace` removes every occurrence of `openrouter/` | model `openrouter/openrouter/auto` gives model id `auto` | drop only the leading prefix, giving `openrouter/auto` | not executed | `ModelIds.AsWrittenDropsInnerPrefix` | `ModelIds.ModelId` |
| tools/generate_stls.py:35-39 | the same `replace` after the same guard, so the directory name is derived from `auto` | model `openrouter/openrouter/auto` gives directory `auto` | directory `openrouter_auto` | not executed | `Stls.AsWrittenRouterDirectory` | `Stls.RoutedModelDirectory` |
