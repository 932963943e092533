# multiply-ui core, modelled in Dafny

multiply-ui lets a user submit earth-observation processing requests. It hands
them to an external process monitor (`PMonitor`) as workflows of processor
tasks, then reports the status of the resulting jobs. This project models the
logic the repository itself contributes around that monitor, and proves what
that logic promises. The parts are:

- **Workflow hooks** (`OnlyGetDataWorkflow`, `AdaptedIterative8Workflow`, shared
  parts in `Workflow`).
  - `create_workflow` slices the request's date range into step-sized windows
    and hands one task per window to the monitor, or a chain of three.
    `only-get-data` also hands over one static task first.
  - `_observe_step` records the command line of a step that did not fail.
  - `_trace_processor_output` reads a processor's output line by line. It
    collects `output=` paths, rescales `INFO:ScriptProgress` and
    `INFO:ComponentProgress` signals (or keeps `progress=` text), keeps the
    processor log and the trace, and swaps in the job handle of an async task.
  - `get_progress` and `get_logs` report what was collected.
  - Dates are day numbers. The monitor's `execute` appends a task record to a
    backlog. The classes keep the monitor's maps and sets as fields that the
    methods update.
- **Controller** (`Controller`):
  - translation of the monitor's status words;
  - the listing of a monitor's four task collections as job tasks;
  - the integer job progress;
  - the bounding-box WKT polygon;
  - the choice of workflow;
  - the ids and names derived from a request.
- **Schema validator** (`Schema`): `TypeDef.validate` over JSON-like values
  (`Json`). It covers optional and null values, the type check, list lengths,
  items, required, missing and unexpected properties, and each error with its
  prefix.
- **`url_pattern`** (`App`): the scanning rewrite of `{{name}}` placeholders
  into named regex groups, with its two errors. A loop is proved equal to a
  recursive definition, and the accepted patterns are characterised.
- **Processing parameters** (`Params`, with the dict-comprehension semantics in
  `Keyed` and the record shapes in `Shapes`). The constructor validates
  against `PARAMETERS_TYPE` and keys the collections. It rejects forward models
  that name undescribed variables, and adds `forwardModels` back-references to
  the variables.
- **Job** (`JobModel`): a class over the job's dict. It covers validation
  against `JOB_TYPE`, the accessors, `tasks` keyed by name, `as_dict`, and
  `update`, which replaces the state only for the same id and name.

In the job progress only succeeded tasks count, 100 each (`controller.py`,
lines 63-76 and 158-172), so a job with 2 of its 4 tasks succeeded is at 50.
`Controller.JobDictOf` states this rule.

## Model

| member | source | states |
|---|---|---|
| Workflow.WindowAt | multiply_ui/server/resources/workflows/only-get-data-workflow.py:44-51 | a window starts at the cursor and ends `step - 1` days later, clipped to the last day |
| Workflow.Windows | multiply_ui/server/resources/workflows/only-get-data-workflow.py:43-51 | the cursor loop yields no window exactly when the range is empty, whatever the step |
| Workflow.WindowsShape | multiply_ui/server/resources/workflows/only-get-data-workflow.py:43-51 | the first window starts on the first day and the last ends on the last day; every window lies in the range and is shorter than `step`; each window starts the day after the previous one ends |
| Workflow.WindowsCover | test/test_data/test_workflows/multiply-adapted-iterative-8-workflow.py:29-37 | a day lies in some window if and only if it lies in the range, and windows do not overlap |
| Workflow.WindowsOrdered | multiply_ui/server/resources/workflows/only-get-data-workflow.py:43-51 | windows are strictly ordered: each ends before any later one starts |
| Workflow.WindowCountBounds | multiply_ui/server/resources/workflows/only-get-data-workflow.py:43-51 | `n` windows satisfy `(n-1)·step <= stop-start < n·step` |
| Workflow.WindowCount | multiply_ui/server/resources/workflows/only-get-data-workflow.py:43-51 | the number of windows is `ceil((stop-start+1)/step)`, and 0 for an empty range |
| Workflow.TenDaysInFours | multiply_ui/server/resources/workflows/only-get-data-workflow.py:43-51 | days 1..10 with step 4 give the windows [1,4], [5,8], [9,10] |
| Workflow.CommandLine | multiply_ui/server/resources/workflows/only-get-data-workflow.py:62-67 | the command `_observe_step` records: definition; properties in `Workflow.CommandLineJoins`, `Workflow.CommandLineWords` |
| Workflow.CommandLineJoins | multiply_ui/server/resources/workflows/only-get-data-workflow.py:62-67 | the recorded command is its head (script path and call, or the call's path) and the fields of the parameters, inputs and outputs, joined by single spaces; an empty list is one empty field |
| Workflow.CommandLineWords | multiply_ui/server/resources/workflows/only-get-data-workflow.py:62-67 | with space-free words, the recorded command splits back on spaces into its head, the parameters, the inputs and the outputs, an empty list giving one empty field, with or without a script |
| Workflow.OutputPath | multiply_ui/server/resources/workflows/only-get-data-workflow.py:99-100 | the path of an `output=` line: definition; properties in `Workflow.OutputPaths`, `OnlyGetDataWorkflow.CollectedPaths` |
| Workflow.AsyncPaths | multiply_ui/server/resources/workflows/only-get-data-workflow.py:117-120 | the async replacement of the paths by the stripped last line: definition; properties in `OnlyGetDataWorkflow.OnlyGetData.TraceProcessorOutput` |
| Workflow.OutputPaths | multiply_ui/server/resources/workflows/only-get-data-workflow.py:99-100 | a stream names at most as many paths as it has lines |
| Workflow.NoOutputLines | multiply_ui/server/resources/workflows/only-get-data-workflow.py:99-100 | a stream without `output=` lines names no path |
| Workflow.PathList.Append | multiply_ui/server/resources/workflows/only-get-data-workflow.py:100 | the path is appended to the caller's list in place |
| Workflow.PathList.Clear | multiply_ui/server/resources/workflows/only-get-data-workflow.py:119 | the caller's list is emptied in place |
| OnlyGetDataWorkflow.StaticTask | multiply_ui/server/resources/workflows/only-get-data-workflow.py:37-42 | the static task of `create_workflow`: definition; properties in `OnlyGetDataWorkflow.WorkflowShape` |
| OnlyGetDataWorkflow.DynamicTask | multiply_ui/server/resources/workflows/only-get-data-workflow.py:45-57 | one dynamic task of `create_workflow`: definition; properties in `OnlyGetDataWorkflow.WorkflowShape` |
| OnlyGetDataWorkflow.WorkflowTasks | multiply_ui/server/resources/workflows/only-get-data-workflow.py:33-57 | the tasks of `create_workflow`: definition; properties in `OnlyGetDataWorkflow.WorkflowShape`, `OnlyGetDataWorkflow.OnlyGetData.CreateWorkflow` |
| OnlyGetDataWorkflow.DynamicTasks | multiply_ui/server/resources/workflows/only-get-data-workflow.py:53-57 | one dynamic task per window, in window order |
| OnlyGetDataWorkflow.WorkflowShape | multiply_ui/server/resources/workflows/only-get-data-workflow.py:42-57 | exactly one static task, first, with outputs `emus`, `dem` and parameters request file, start, stop; then `ceil((stop-start+1)/step)` dynamic tasks, none for an empty range, task `i` on window `i-1` |
| OnlyGetDataWorkflow.OnlyGetData.CreateWorkflow | multiply_ui/server/resources/workflows/only-get-data-workflow.py:33-57 | the loop appends exactly the workflow's tasks to the backlog; on an empty range, for any step, that is the static task alone |
| OnlyGetDataWorkflow.OnlyGetData.Execute | multiply_ui/server/resources/workflows/only-get-data-workflow.py:42 | a task joins the end of the backlog |
| OnlyGetDataWorkflow.OnlyGetData.ObserveStep | multiply_ui/server/resources/workflows/only-get-data-workflow.py:59-69 | a positive exit code records nothing; otherwise exactly the formatted command line is added |
| OnlyGetDataWorkflow.Rescale | multiply_ui/server/resources/workflows/only-get-data-workflow.py:108-111 | a component progress placed in the script window: definition; properties in `OnlyGetDataWorkflow.RescaleBounds`, `OnlyGetDataWorkflow.RescaleExample` |
| OnlyGetDataWorkflow.RescaleBounds | multiply_ui/server/resources/workflows/only-get-data-workflow.py:106-111 | a percentage 0..100 rescaled into `[lo, hi]` stays in it: 0 gives `lo`, 100 gives `hi` |
| OnlyGetDataWorkflow.RescaleExample | multiply_ui/server/resources/workflows/only-get-data-workflow.py:109-111 | 40 percent of the window 10-50 is 26 |
| OnlyGetDataWorkflow.ScriptProgress | multiply_ui/server/resources/workflows/only-get-data-workflow.py:101-105 | a parsed line opens a window and sets the progress to its lower bound; a line that raises leaves the progress and the upper bounds as they were |
| OnlyGetDataWorkflow.ComponentProgress | multiply_ui/server/resources/workflows/only-get-data-workflow.py:106-111 | the window is never changed; without a window the line is ignored |
| OnlyGetDataWorkflow.ReadLine | multiply_ui/server/resources/workflows/only-get-data-workflow.py:97-113 | only an `output=` line adds a path and only an unrecognised line joins the log; only progress lines can raise |
| OnlyGetDataWorkflow.Advance | multiply_ui/server/resources/workflows/only-get-data-workflow.py:97-115 | after an error nothing changes; a line that does not raise is written to the trace |
| OnlyGetDataWorkflow.LogLines | multiply_ui/server/resources/workflows/only-get-data-workflow.py:112-113 | the log keeps at most the lines read |
| OnlyGetDataWorkflow.TracedLines | multiply_ui/server/resources/workflows/only-get-data-workflow.py:97-115 | without an error every line reaches the trace; otherwise exactly the lines before the failing one |
| OnlyGetDataWorkflow.CollectedPaths | multiply_ui/server/resources/workflows/only-get-data-workflow.py:99-100 | without an error the paths grow by the stream's `output=` paths, in stream order |
| OnlyGetDataWorkflow.CollectedLog | multiply_ui/server/resources/workflows/only-get-data-workflow.py:95-96 | without an error the log grows by exactly the unrecognised lines, in order |
| OnlyGetDataWorkflow.StopsAtError | multiply_ui/server/resources/workflows/only-get-data-workflow.py:97-113 | once a line raises, later lines change nothing |
| OnlyGetDataWorkflow.ScriptProgressLine | multiply_ui/server/resources/workflows/only-get-data-workflow.py:101-105 | `INFO:ScriptProgress:lo-hi`, with or without its final newline, sets the window to `[lo, hi]` and the progress to `lo`, and changes nothing else |
| OnlyGetDataWorkflow.ComponentProgressLine | multiply_ui/server/resources/workflows/only-get-data-workflow.py:106-111 | `INFO:ComponentProgress:p` for a whole `p` of either sign, with or without its final newline, sets the progress to the rescaled value when a window is open, and otherwise changes nothing |
| OnlyGetDataWorkflow.ReadLinesStep | multiply_ui/server/resources/workflows/only-get-data-workflow.py:97-115 | reading one more line is one more step of the reading loop |
| OnlyGetDataWorkflow.OnlyGetData.TraceLine | multiply_ui/server/resources/workflows/only-get-data-workflow.py:98-113 | one loop round updates the fields as reading that line prescribes |
| OnlyGetDataWorkflow.OnlyGetData.TraceScriptProgress | multiply_ui/server/resources/workflows/only-get-data-workflow.py:101-105 | the three progress maps change as `ScriptProgress` prescribes |
| OnlyGetDataWorkflow.OnlyGetData.TraceComponentProgress | multiply_ui/server/resources/workflows/only-get-data-workflow.py:106-111 | the progress map changes as `ComponentProgress` prescribes |
| OnlyGetDataWorkflow.OnlyGetData.TraceProcessorOutput | multiply_ui/server/resources/workflows/only-get-data-workflow.py:85-120 | the trace, the progress maps, the command's log and the output paths are those of reading the stream; an async task with a non-empty last line is left with that line, stripped, as its only path |
| OnlyGetDataWorkflow.OnlyGetData.GetProgress | multiply_ui/server/resources/workflows/only-get-data-workflow.py:122-125 | the recorded progress, or 0 for an unknown command |
| OnlyGetDataWorkflow.OnlyGetData.GetLogs | multiply_ui/server/resources/workflows/only-get-data-workflow.py:127-130 | the recorded log, or the empty list for an unknown command |
| AdaptedIterative8Workflow.WindowTasks | test/test_data/test_workflows/multiply-adapted-iterative-8-workflow.py:38-46 | each window gives three tasks |
| AdaptedIterative8Workflow.IterativeTasks | test/test_data/test_workflows/multiply-adapted-iterative-8-workflow.py:29-46 | three tasks per window, window by window |
| AdaptedIterative8Workflow.IterativeTasksAt | test/test_data/test_workflows/multiply-adapted-iterative-8-workflow.py:29-46 | the tasks of window `i` sit at positions `3i`, `3i+1`, `3i+2` |
| AdaptedIterative8Workflow.IterativeShape | test/test_data/test_workflows/multiply-adapted-iterative-8-workflow.py:24-46 | no static task; `3·ceil((stop-start+1)/step)` tasks; scripts 1, 2, 3 in order; script 2 reads script 1's output and script 3 reads script 2's; only script 1 gets the window's dates |
| AdaptedIterative8Workflow.MultiplyAdaptedIterative8.CreateWorkflow | test/test_data/test_workflows/multiply-adapted-iterative-8-workflow.py:24-46 | the loop appends exactly the chained tasks of every window to the backlog; on an empty range, for any step, nothing |
| AdaptedIterative8Workflow.MultiplyAdaptedIterative8.Execute | test/test_data/test_workflows/multiply-adapted-iterative-8-workflow.py:41-46 | a task joins the end of the backlog |
| AdaptedIterative8Workflow.MultiplyAdaptedIterative8.ObserveStep | test/test_data/test_workflows/multiply-adapted-iterative-8-workflow.py:48-58 | a positive exit code records nothing; otherwise exactly the formatted command line is added |
| AdaptedIterative8Workflow.LastProgressLine | test/test_data/test_workflows/multiply-adapted-iterative-8-workflow.py:87-88 | there is a last `progress=` line exactly when some line is one |
| AdaptedIterative8Workflow.ReadPaths | test/test_data/test_workflows/multiply-adapted-iterative-8-workflow.py:85-86 | reading appends the stream's `output=` paths in order |
| AdaptedIterative8Workflow.ReadProgress | test/test_data/test_workflows/multiply-adapted-iterative-8-workflow.py:87-88 | the command's progress text is that of its last `progress=` line, or unchanged without one; other commands are untouched |
| AdaptedIterative8Workflow.ProgressTextOfInt | test/test_data/test_workflows/multiply-adapted-iterative-8-workflow.py:87-88 | `progress=` followed by a number's decimal text is a progress line carrying exactly that text |
| AdaptedIterative8Workflow.MultiplyAdaptedIterative8.ReadProcessorLines | test/test_data/test_workflows/multiply-adapted-iterative-8-workflow.py:83-90 | the loop over the lines: every line is traced in order, each `output=` line appends its stripped path and each `progress=` line records its stripped text for the command, exactly as reading the stream does |
| AdaptedIterative8Workflow.MultiplyAdaptedIterative8.TraceProcessorOutput | test/test_data/test_workflows/multiply-adapted-iterative-8-workflow.py:73-95 | every line is traced; progress and paths are those of reading the stream; an async task with a non-empty last line keeps only that line, stripped |
| AdaptedIterative8Workflow.MultiplyAdaptedIterative8.GetProgress | test/test_data/test_workflows/multiply-adapted-iterative-8-workflow.py:97-100 | 0 for an unknown command; otherwise `int()` of the stored text, `None` where `int()` raises |
| AdaptedIterative8Workflow.ProgressRoundTrip | test/test_data/test_workflows/multiply-adapted-iterative-8-workflow.py:87-100 | a stream whose last `progress=` line carries `n`, with or without its final newline, makes `get_progress` report `n` |
| Controller.TranslateStatus | multiply_ui/server/controller.py:80-90 | a translated status is one of the five job statuses |
| Controller.TranslateStatusTable | multiply_ui/server/controller.py:80-90 | ERROR and FAILED become failed, RUNNING becomes running, DONE and SUCCEEDED become succeeded, CANCELLED becomes cancelled, INITIAL becomes new; any other word gives `None` |
| Controller.TranslateStatusOnto | multiply_ui/server/controller.py:80-90 | every job status is the translation of some monitor word |
| Controller.StepLine | multiply_ui/server/controller.py:131-135 | a backlog line of `_pm_workflow_of`: definition; properties in `Controller.StepLineWords`, `Controller.StepLineSplits` |
| Controller.StepLineWords | multiply_ui/server/controller.py:131-135 | a backlog step is the call and the fields of the parameters, inputs and outputs joined by single spaces, ending in a newline; an empty list is one empty field |
| Controller.StepLineSplits | multiply_ui/server/controller.py:131-135 | with space-free words, a backlog step line ends in a newline and, without it, splits back into the call and the three lists' fields |
| Controller.PmWorkflowOf | multiply_ui/server/controller.py:124-142 | the backlog as initial steps at 0, then running ones at their progress, succeeded ones at 100, failed ones at their progress; the length is the sum of the four sizes |
| Controller.JobDictOf | multiply_ui/server/controller.py:57-76 | one task dict per step in order, named by the step, at 100 if succeeded and 0 otherwise; the job progress is the truncated share of succeeded steps, 100 without steps |
| Controller.JobProgress | multiply_ui/server/controller.py:158-172 | the job progress of `get_job`: definition; properties in `Controller.JobProgressBounds`, `Controller.JobProgressComplete` |
| Controller.JobProgressBounds | multiply_ui/server/controller.py:76 | the job progress lies in 0..100 |
| Controller.JobProgressComplete | multiply_ui/server/controller.py:159-172 | the job progress is 100 exactly when every step has succeeded |
| Controller.FullShare | multiply_ui/server/controller.py:172 | `k` of `n` in percent, truncated, is 100 exactly when `k` is `n` |
| Controller.AllSucceeded | multiply_ui/server/controller.py:163-165 | every step counts exactly when every step has succeeded |
| Controller.ListedSucceeded | multiply_ui/server/controller.py:124-142 | in the listing exactly the finished commands have succeeded, so the succeeded count is their number |
| Controller.ReportedMonitor | multiply_ui/server/controller.py:57-76 | reporting the listed steps gives backlog steps as `initial` at 0, running at 0, finished as `succeeded` at 100, failed at 0, and the job progress `100·|commands| / steps` truncated, 100 without steps |
| Controller.WorkDir | multiply_ui/server/controller.py:43-46 | the job's working directory: definition; properties in `Controller.SubmitRequest` (the data root of the submitted request) |
| Controller.RequestFile | multiply_ui/server/controller.py:47 | the request file path: definition; properties in `Controller.SubmitRequest` (the request file of the submitted request) |
| Controller.PmRequestOf | multiply_ui/server/controller.py:93-115 | the derived fields of the monitor's request, failing on a bad bbox before any is set: definition; properties in `Controller.SubmitRequest` |
| Controller.RequestName | multiply_ui/server/controller.py:96 | the `requestName` of the monitor's request: definition; properties in `Controller.SubmitRequest`, `Controller.ReportedNameOfSubmitted` |
| Controller.ReportedName | multiply_ui/server/controller.py:155 | the name `get_job` reports: definition; properties in `Controller.GetJob`, `Controller.ReportedNameOfSubmitted` |
| Controller.SubmitRequest | multiply_ui/server/controller.py:40-77 | a bbox that does not split into four parts fails with the unpacking error, before anything is submitted; otherwise the request carries the request name `<workdir>/<name>`, the id (the name with spaces replaced by `_`), the data root `<root>/<id>`, the log and prior directories under it, the bbox's polygon and the request file `<workdir>/<id>.json`, and a `/`-free name is what `get_job` reports back; the job dict reports the name and translated status, every step of the monitor as a task in listing order with its status and 0/100 progress, and the truncated share of finished commands as job progress (100 without steps) |
| Controller.GetJob | multiply_ui/server/controller.py:153-173 | the reported name is the last `/` part of the request name; the status, every step as a task in listing order with its status and 0/100 progress, and the job progress as the truncated share of finished commands are reported |
| Controller.JobId | multiply_ui/server/controller.py:42-43 | the id has the name's length, every space becomes `_`, and every other character of the name stays in place |
| Controller.JobIdOfPlainName | multiply_ui/server/controller.py:42-43 | a name without spaces is its own id |
| Controller.ReportedNameOfSubmitted | multiply_ui/server/controller.py:155 | `get_job` reports the name a request was submitted under, for a name without `/` |
| Controller.BboxToWkt | multiply_ui/server/controller.py:102-104 | the box is rejected exactly when it does not split into four parts |
| Controller.WktPolygon | multiply_ui/server/controller.py:30-32 | the `POLYGON((...))` text of `get_inputs`: definition; properties in `Controller.BboxPolygon` |
| Controller.BboxPolygon | multiply_ui/server/controller.py:30-32 | four comma-free coordinates give the WKT polygon of the box's five-vertex ring, whose first and last vertex are both `minLon minLat` |
| Controller.DetermineWorkflow | multiply_ui/server/controller.py:118-121 | a request without `productionType` runs `only-get-data` |
| Controller.DetermineNamedWorkflow | multiply_ui/server/controller.py:118-120 | a request that names a production type runs that one |
| Schema.MakeTypeDef | multiply_ui/util/schema.py:5-18 | `num_items` stands in for whichever of the minimum and maximum is not given |
| Schema.Validate | multiply_ui/util/schema.py:36-50 | `TypeDef.validate`: definition; properties in `Schema.NullAcceptedIffOptional`, `Schema.TypeMismatchRejected`, `Schema.PrefixIrrelevant` |
| Schema.NullAcceptedIffOptional | multiply_ui/util/schema.py:38-41 | null passes exactly when the type is optional, and otherwise fails with "value is not optional" |
| Schema.TypeMismatchRejected | multiply_ui/util/schema.py:43-45 | a value of the wrong type fails when the type is not optional, and a scalar of the wrong type passes when it is |
| Schema.CheckCount | multiply_ui/util/schema.py:53-63 | the item-count checks of `_validate_list`: definition; properties in `Schema.CheckCountPasses`, `Schema.FixedItemCount` |
| Schema.CheckCountPasses | multiply_ui/util/schema.py:53-63 | the length checks pass exactly when the length meets the fixed count, the minimum and the maximum |
| Schema.FixedItemCount | multiply_ui/util/schema.py:16-17 | `num_items = n` accepts only lists of `n` items, and any other length fails with "number of items must be n" |
| Schema.ValidateList | multiply_ui/util/schema.py:52-68 | `_validate_list`: definition; properties in `Schema.ListAccepted`, `Schema.FirstFailingItem` |
| Schema.ValidateItems | multiply_ui/util/schema.py:65-68 | the item loop of `_validate_list`: definition; properties in `Schema.ListAccepted`, `Schema.FirstFailingItem` |
| Schema.ListAccepted | multiply_ui/util/schema.py:65-68 | a list whose length is acceptable and whose items are all accepted passes |
| Schema.FirstFailingItem | multiply_ui/util/schema.py:65-68 | the first failing item's error is the list's error, under the prefix `index j: ` |
| Schema.ValidateDict | multiply_ui/util/schema.py:70-81 | `_validate_dict`: definition; properties in `Schema.DictAccepted`, `Schema.UndeclaredKeysRejected` |
| Schema.ValidateProps | multiply_ui/util/schema.py:72-75 | the property loop of `_validate_dict`: definition; properties in `Schema.PropsAccepted`, `Schema.AbsentProperty` |
| Schema.ValidateProperty | multiply_ui/util/schema.py:73-75 | one round of the property loop: definition; properties in `Schema.PropsAccepted`, `Schema.AbsentProperty` |
| Schema.Message | multiply_ui/util/schema.py:41-81 | the text of each `ValueError` the validator raises: definition; properties in `Schema.FixedItemCount`, `Schema.UndeclaredKeysRejected` |
| Schema.PropsAccepted | multiply_ui/util/schema.py:72-75 | the property loop passes exactly when every declared property is present and accepted |
| Schema.AbsentProperty | multiply_ui/util/schema.py:73-75 | the first absent property fails as missing when required, and with a `KeyError` when optional |
| Schema.DictAccepted | multiply_ui/util/schema.py:70-81 | a dict whose declared properties are accepted and which has no other key passes |
| Schema.Undeclared | multiply_ui/util/schema.py:77 | the illegal keys are exactly the keys not declared, each once |
| Schema.UndeclaredKeysRejected | multiply_ui/util/schema.py:77-81 | one undeclared key fails with its name; several fail with all their names, sorted |
| Schema.PrefixIrrelevant | multiply_ui/util/schema.py:36-50 | whether a value passes does not depend on the prefix |
| App.UrlPattern | multiply_ui/server/app.py:40-59 | the scanning loop computes the recursive rewrite |
| App.Pieces | multiply_ui/server/app.py:43-58 | the scanning loop of `_url_pattern` read as pieces: definition; properties in `App.PiecesEnd`, `App.PiecesStep`, `App.PiecesFail`, `App.PiecesSpellSource` |
| App.UrlPatternOf | multiply_ui/server/app.py:40-59 | `_url_pattern`: definition; properties in `App.UrlPattern`, `App.AcceptedPatterns` |
| App.PiecesEnd | multiply_ui/server/app.py:56-58 | with no further `{{` the rest of the pattern is copied verbatim |
| App.PiecesStep | multiply_ui/server/app.py:44-52 | a placeholder with an identifier name becomes a named group, preceded by the text before it |
| App.PiecesFail | multiply_ui/server/app.py:45-54 | a `{{` without a later `}}` and a name that is not an identifier are the two errors |
| App.NoPlaceholderUnchanged | multiply_ui/server/app.py:44-58 | a pattern without `{{` is returned unchanged |
| App.UnclosedRejected | multiply_ui/server/app.py:46-54 | a `{{` with no `}}` after it fails with "no matching" |
| App.PiecesSpellSource | multiply_ui/server/app.py:43-58 | the pieces of an accepted pattern are well formed and spell the pattern |
| App.SourceScansBack | multiply_ui/server/app.py:43-58 | well-formed pieces that spell a pattern are what the scan finds |
| App.AcceptedPatterns | multiply_ui/server/app.py:40-59 | the scan accepts a pattern with pieces `ps` exactly when `ps` is well formed and spells the pattern; the regex is one named group per placeholder, in order |
| App.RegexAppend | multiply_ui/server/app.py:51-57 | the regex of joined pieces is the joined regexes |
| App.ScanAdvance | multiply_ui/server/app.py:47-52 | one accepted round of the loop keeps the loop's account of what is scanned and what is emitted |
| App.ScanEnd | multiply_ui/server/app.py:56-58 | when no `{{` is left the emitted text is the whole rewrite |
| App.ScanError | multiply_ui/server/app.py:49-54 | an error in the rest of the scan is the error of the whole rewrite |
| Text.FindSpec | multiply_ui/server/app.py:44-46 | `find` returns the first occurrence at or after the start, and -1 exactly when there is none |
| Keyed.Subscript | multiply_ui/ui/params/model.py:283 | a subscript succeeds exactly on a dict holding the key |
| Keyed.KeyedBy | multiply_ui/ui/params/model.py:283 | the comprehension fails only because an item is not a dict |
| Keyed.KeysOf | multiply_ui/ui/params/model.py:283 | one key per item, in order |
| Keyed.FirstOccurrences | multiply_ui/ui/params/model.py:94-96 | the distinct keys, each once |
| Keyed.LastWithKey | multiply_ui/ui/params/model.py:283 | the value kept for a key is an item with that key, and there is none for an absent key |
| Keyed.KeyedByFails | multiply_ui/ui/params/model.py:283 | the comprehension succeeds exactly when all items are dicts |
| Keyed.KeyedByContents | multiply_ui/ui/params/model.py:283 | keys keep their first position and take their last value |
| Keyed.KeyedBySelfKeyed | multiply_ui/ui/params/model.py:301-302 | every entry's value carries its own key, and keys are distinct |
| Keyed.RekeyIdentity | multiply_ui/ui/params/model.py:301-302 | re-keying the values of a self-keyed dict gives the same dict back |
| Keyed.Catalog.Ids | multiply_ui/ui/params/model.py:94-96 | the keys in insertion order |
| Keyed.Catalog.GetItem | multiply_ui/ui/params/model.py:98-99 | a known key gives its value; an unknown key raises `KeyError` for that key |
| Keyed.KeyedByFrom | multiply_ui/ui/params/model.py:298-300 | a collection built from a list has its first-occurrence ids and each id's last value |
| Keyed.KeyedGetItem | multiply_ui/ui/params/model.py:170-171 | `get` succeeds exactly on the ids of the list, with the last item of that id |
| Params.VariableShape | multiply_ui/ui/params/model.py:6-50 | an accepted variable has a text id and no `forwardModels` |
| Params.ModelShape | multiply_ui/ui/params/model.py:6-50 | an accepted forward model has a text id and name and a list of text variable ids |
| Params.ParametersShape | multiply_ui/ui/params/model.py:279-285 | accepted raw data has the five lists with text keys |
| Params.AppendRef | multiply_ui/ui/params/model.py:294-296 | adding a back-reference keeps a variable linkable |
| Params.AddBackRef | multiply_ui/ui/params/model.py:293-296 | adding a back-reference keeps the variable ids |
| Params.LinkIds | multiply_ui/ui/params/model.py:288-296 | linking one model's ids keeps the variable ids |
| Params.Link | multiply_ui/ui/params/model.py:287-296 | linking all models keeps the variable ids |
| Params.Occurrences | multiply_ui/ui/params/model.py:289-296 | one back-reference per mention of the variable, each the model's id |
| Params.ReferrersMembers | multiply_ui/ui/params/model.py:287-296 | a back-reference is there exactly when it is the id of a model that lists the variable |
| Params.LinkIdsLinked | multiply_ui/ui/params/model.py:289-296 | after one model, each variable has gained its references from that model |
| Params.LinkLinked | multiply_ui/ui/params/model.py:287-296 | after all models, each variable has gained exactly its referrers, in model order, once per mention |
| Params.LinkIdsOutcome | multiply_ui/ui/params/model.py:289-292 | one model links exactly when all its ids are described; the error names an undescribed id of that model |
| Params.LinkOutcome | multiply_ui/ui/params/model.py:287-292 | linking succeeds exactly when every model is described; the error is a non-dict model or an undescribed id named with its model |
| Params.LinkIdsFirst | multiply_ui/ui/params/model.py:289-292 | a failing model's ids are checked in order: the error names the first of them that is not described |
| Params.LinkFirst | multiply_ui/ui/params/model.py:287-292 | an undescribed-id error comes from the first model that is not described, every model before it being described, and names that model's first undescribed id |
| Params.LinkIdsErrSticks | multiply_ui/ui/params/model.py:290-292 | the first undescribed id stops the loop |
| Params.LinkErrSticks | multiply_ui/ui/params/model.py:290-292 | the first failing model stops the loop |
| Params.LinkModelIds | multiply_ui/ui/params/model.py:288-296 | the inner loop computes one model's linking |
| Params.LinkForwardModels | multiply_ui/ui/params/model.py:287-296 | the nested loops compute the linking of all models |
| Params.LinkSelfKeyed | multiply_ui/ui/params/model.py:301-302 | linking keeps every variable under its own id |
| Params.VariablesLinkable | multiply_ui/ui/params/model.py:283 | the keyed raw variables have no back-references yet |
| Params.Assemble | multiply_ui/ui/params/model.py:298-307 | building the collections can only fail on a non-dict item |
| Params.NewProcessingParameters | multiply_ui/ui/params/model.py:276-307 | the constructor computes the staged definition |
| Params.ParametersValidatedFirst | multiply_ui/ui/params/model.py:279 | invalid raw data fails with the validator's error before anything else happens |
| Params.ParametersOfNonDict | multiply_ui/ui/params/model.py:279-281 | a non-dict raises on its first subscript |
| Params.ParametersOf | multiply_ui/ui/params/model.py:276-307 | `ProcessingParameters.__init__`: definition; properties in `Params.ParametersOfStages`, `Params.ParametersOfOk`, `Params.ParametersOkOnlyIf`, `Params.ParametersOkIf`, `Params.ParametersUndescribed` |
| Params.ParametersOfStages | multiply_ui/ui/params/model.py:281-307 | a constructed object comes from keying the variables, linking and then building the collections |
| Params.ParametersOfOk | multiply_ui/ui/params/model.py:298-307 | input types, forward models and indicators are keyed by id and post processors by name, from their lists; variables are the linked ones |
| Params.ParametersOkOnlyIf | multiply_ui/ui/params/model.py:281-307 | construction succeeds only when all lists hold dicts and every model is described |
| Params.ParametersOkIf | multiply_ui/ui/params/model.py:279-307 | accepted raw data whose lists hold dicts and whose models are all described always constructs |
| Params.ParametersUndescribed | multiply_ui/ui/params/model.py:287-292 | an undescribed-variable error names an id that no variable has, and a model of that name that lists it; it is the first undescribed id of the first forward model, in document order, that has one |
| Params.ParametersVariables | multiply_ui/ui/params/model.py:283-302 | variable ids in first-occurrence order; each variable is its last raw dict, with `forwardModels` holding its referrers, absent when there are none |
| JobModel.CheckJob | multiply_ui/ui/job/model.py:73-75 | validation passes exactly for a dict accepted by `JOB_TYPE`; a non-dict raises when subscripted |
| JobModel.JobPrefix | multiply_ui/ui/job/model.py:73-74 | the error prefix of `_validate`: definition; properties in `JobModel.CheckJobMessage` |
| JobModel.CheckJobMessage | multiply_ui/ui/job/model.py:74-75 | the error is the validator's under the prefix `job <id>: `, or `job ?: ` without an id |
| JobModel.JobShape | multiply_ui/ui/job/model.py:12-18 | an accepted job has text id, name and status, an int progress, and a list of tasks with text names |
| JobModel.JobFailureIff | multiply_ui/ui/job/model.py:67-71 | construction succeeds exactly for an accepted dict whose tasks are all dicts |
| JobModel.JobValidatedFirst | multiply_ui/ui/job/model.py:68 | an invalid job fails with the validator's error |
| JobModel.TasksOf | multiply_ui/ui/job/model.py:97-101 | `Job.tasks`: definition; properties in `JobModel.TasksContents`, `JobModel.Job.Tasks` |
| JobModel.TasksContents | multiply_ui/ui/job/model.py:97-101 | tasks are keyed by name when all are dicts: first-occurrence names, last value |
| JobModel.UpdateOutcome | multiply_ui/ui/job/model.py:107-110 | `Job.update`: definition; properties in `JobModel.UpdateFails`, `JobModel.UpdateKeepsJob`, `JobModel.UpdateIdempotent` |
| JobModel.UpdateFails | multiply_ui/ui/job/model.py:108 | an update fails exactly when the new state is invalid, with the validation error |
| JobModel.UpdateKeepsJob | multiply_ui/ui/job/model.py:107-110 | after an update the state is valid and belongs to the same job; it is replaced exactly when id and name match |
| JobModel.UpdateIdempotent | multiply_ui/ui/job/model.py:107-110 | updating twice with the same state is the same as updating once |
| JobModel.Job.Create | multiply_ui/ui/job/model.py:67-71 | construction fails exactly as the checks prescribe; otherwise a valid job holds the raw dict |
| JobModel.Job.Id | multiply_ui/ui/job/model.py:77-79 | the text under `id` |
| JobModel.Job.Name | multiply_ui/ui/job/model.py:81-83 | the text under `name` |
| JobModel.Job.Progress | multiply_ui/ui/job/model.py:85-87 | the int under `progress` |
| JobModel.Job.Status | multiply_ui/ui/job/model.py:89-91 | the text under `status` |
| JobModel.Job.Tasks | multiply_ui/ui/job/model.py:93-101 | a valid job always has tasks; they are keyed by name exactly when all are dicts |
| JobModel.Job.AsDict | multiply_ui/ui/job/model.py:103-105 | a dict with the job's fields, accepted by `JOB_TYPE` |
| JobModel.Job.Update | multiply_ui/ui/job/model.py:107-110 | the job stays valid; an invalid state raises and changes nothing; otherwise the state is replaced for the same id and name and kept otherwise |
| Shapes.RecordAccepted | multiply_ui/util/schema.py:70-75 | a dict accepted by a record type has every declared property accepted and no undeclared key |
| Text.ParseIntToString | test/test_data/test_workflows/multiply-adapted-iterative-8-workflow.py:99 | `int()` reads back any integer's decimal text |
| Text.SplitJoin | multiply_ui/server/controller.py:30-32 | splitting comma-joined, comma-free parts gives the parts back |
| Text.SortStrings | multiply_ui/util/schema.py:81 | the result is sorted and a permutation of the input |

## Left out

- The `PMonitor` scheduler is not part of this model: backlog and running sets, host and type admission, `wait_for_completion`, `Args.get_*`. The monitor's `execute` is modelled as appending a task record. The host and type budget tables are kept as constants, with no admission semantics.
- The controller receives the monitor's four collections as sequences. Python set iteration order is not modelled; the running and failed progress is a function parameter.
- Process and OS interaction (`_run_step`, process start and wait, `cancel` with signals) is left out. Processor output is a sequence of lines, and the trace file is the sequence of lines written.
- `OnlyGetDataWorkflow.ComponentProgress`: integer percentages only, with truncation toward zero written out. A fractional value such as `INFO:ComponentProgress:40.5`, read while a window is open, is not read by `ParseInt`, so the model raises `NotAnInteger` where the source's `float()` accepts it. Through `OnlyGetDataWorkflow.StopsAtError` that line then ends the trace, the collected paths and the log, and the replacement of the async job handle is skipped; the source instead rescales the value and reads on.
- `strptime` and `strftime` are left out. Dates are day numbers, and `DateText` stands for their formatted text.
- `Workflow.Windows`: requires a step of at least one day or an empty range. On an empty range the cursor loop exits at once for any step, and the model gives no window. On a non-empty range a step of 0 makes the source's loop run forever, and a negative step walks the cursor backwards until `datetime` raises `OverflowError`. Neither case is modelled.
- `OnlyGetDataWorkflow.OnlyGetData.CreateWorkflow`: same precondition as `Workflow.Windows`. On an empty range it hands over the static task alone, for any step. On a non-empty range with a step of 0 or less it never ends, or ends in `OverflowError`, and this is not modelled.
- `AdaptedIterative8Workflow.MultiplyAdaptedIterative8.CreateWorkflow`: same precondition as `Workflow.Windows`. On an empty range it hands over nothing, for any step. On a non-empty range with a step of 0 or less it never ends, or ends in `OverflowError`, and this is not modelled.
- `Controller.SubmitRequest`: the template loading, `json.dump`, directory creation, the processing server's `submit_request` and the data-access query in `get_inputs` are foreign calls or I/O. The working directory root comes in as a parameter, and the server's reply as the status and monitor parameters. The model keeps the request fields derived from the job (request name, id, data root, log and prior directories, region, request file) and the job dict. The template's other fields, the dates and the copied request fields are not modelled.
- `Controller.GetJob`: the job lookup in the service context is a parameter (request name, status, monitor view).
- `_pm_request_of` beyond the polygon, the workflow choice and the derived paths is left out. These are template fields copied from the request, and dates go through `strftime`.
- `Controller.JobDictOf`: `status is 'succeeded'` is modelled as string equality, and `int(a / b)` as integer division on non-negative values.
- `Text.ParseInt`: accepts optionally signed ASCII digits around whitespace. Underscores and non-ASCII digits, which Python's `int()` also takes, are not modelled.
- `App.UrlPattern`: `str.isidentifier` is modelled for ASCII letters, digits and `_` only.
- `Schema.Message`: `repr` of a name is modelled as the name in single quotes. Names with quotes, backslashes or unprintable characters are not modelled.
- `Keyed.KeyedBy`: requires keys to be text where the item is a dict. A non-text or missing key in a dict that passed validation cannot occur, because the types require text ids and names.
- A non-dict value passes `TypeDef(object, properties)` validation in the source. The subscript that follows raises `TypeError`, modelled as `NotADict`. The distinct `TypeError` texts are not modelled.
- `Params.NewProcessingParameters`: the source appends back-references into the caller's variable dicts in place, and they stay even when a later model raises. The model computes new values and does not capture this aliasing.
- `JobModel.Job.Create`: the job keeps the caller's dict by reference in the source. The model copies the fields, so later outside mutation is not modelled.
- `JobModel.Display`: an `id` that is a float, list or dict is rendered as `?` in the error prefix, instead of Python's `str()` of it.
- `Job._tasks` is built in `__init__` and never read again. Only its failure (a task that is not a dict) is modelled.
- The `has_tasks == False` branch of `tasks` cannot be reached by a job that passed validation, since `tasks` is a required property. `JobModel.Job.Tasks` states that a valid job always has tasks.
- `update` does not re-check that the new tasks are dicts. `JobModel.Job.Tasks` can therefore fail after an update, as in the source.
- HTTP handlers, the Tornado application and its thread pool, the notebook UI (`exec.py`, `mui.py`, `req/form.py`, `job/api.py`) and `context.py` are not part of this model.
- `req/model.py`, the external processor scripts and the HTML table rendering of the collections are not part of this model.
