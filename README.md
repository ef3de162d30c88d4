# MONICA job pipeline, modelled in Dafny

MONICA is a terminal front end for FFmpeg. The user picks a recipe, which is
an FFmpeg preset with an output extension and a list of accepted input
extensions. They then pick files from an import directory, and MONICA
converts the files one at a time into an export directory. The files are
processed fail-fast: the first failure stops the batch. Everything is logged
through a singleton logger.

This project models the sequential core of that pipeline:

- the progress-text parsers `parse_duration` and `parse_time`, and the
  `out_time=` reader of the older executor;
- the probe scan, which takes the first truthy duration, and the poll scan,
  which takes the newest truthy time among the last 20 stderr lines;
- `format_time`, and the arithmetic of the progress bar, the percentage and
  the ETA;
- `generate_output_filename` and the FFmpeg command lists;
- `run_ffmpeg_job` and `execute_jobs` of both executors, `src/monica/executor.py`
  and the older `src/executor.py`: each job's `(success, error)` and its log
  records, and the batch's fail-fast trace;
- the recipe catalog: category lookup, the input-extension union,
  `to_dict`/`from_dict` and the copy made by `get_all_recipes`;
- the file selector's filtering and sorting, the two ways `select_files`
  comes back empty, and the unit `format_size` chooses;
- the message builders of `MonicaLogger` and its two-level singleton.

Processes are not run. A run is described by what its processes produced:

- for the probe: its stderr, a timeout, or an exception;
- for the conversion: an exception at launch, or its output lines, exit code
  and (for the older executor) whether the final wait timed out.

Timestamps and elapsed seconds are parameters. Seconds are exact `real`s.

The modules follow the program:

| module | contents |
|---|---|
| `ProgressText` | the parsers of both executors, which hold the same code |
| `ProgressBar` | the cell arithmetic shared by both progress bars |
| `Naming` | `generate_output_filename`, identical in both files |
| `Logging`, `Batch` | the logger, and the `execute_jobs` trace both executors share |
| `JobCommon` | the probe loop and the exception handlers common to both `run_ffmpeg_job`s |
| `MonicaDisplay`, `MonicaExecutor` | the newer executor |
| `LegacyExecutor` | the older executor |
| `Recipes`, `FileSelector` | the recipe catalog and the file selector |
| `Text`, `Paths`, `Sequences`, `Wrappers` | string, path and sequence helpers |

Three behaviours of the code worth stating:

- **A failing probe.** An exception raised by the probe ends the job with
  `(False, str(e))`, and a probe timeout goes to the timeout handler (see
  Findings).
- **Fractions of a second.** The `out_time=` fraction is always divided by
  1,000,000, and the `time=` and `Duration:` fractions always by 100,
  whatever the number of digits.
- **Conversion timeouts.** The newer executor's conversion has no timeout.
  In the older one, the only timeout after the probe is the final
  `wait(timeout=60)`.

The job and batch members of both executors (`RunReportSpec`, `RunJob`,
`ProcessFile`, `RunUntilFailure`, `RunItems`, `ExecuteJobs`) use the
corrected timeout handler of Findings. For every run whose probe does not
time out, `RunReportSpec` and `RunJob` prove that the handler as written
gives the same result.

`ExecuteJobs` states the log as the job-start records, then `ItemsTrace`,
then one job-end record. That sum is `Batch.Trace` by definition, so the
`Batch` lemmas `FailFast`, `AllAttempted`, `EmptyBatch`, `TraceEnds` and
`ItemBlockShape` describe the log of both executors.

## Model

| member | source | states |
|---|---|---|
| ProgressText.ParseDurationSpec | src/monica/executor.py:74-80 | parse_duration is None exactly when the `Duration:\s*` clock pattern matches at no position; otherwise it is the match at the leftmost matching position, read as h*3600 + m*60 + s + frac/100 |
| ProgressText.ParseTimeSpec | src/monica/executor.py:83-89 | parse_time: the same contract for the `time=` key, which allows no whitespace |
| ProgressText.SearchSpec | src/monica/executor.py:76 | re.search: no result exactly when no position matches; the result is the match at the leftmost matching position |
| ProgressText.ClockSpanSound | src/monica/executor.py:76 | whatever the greedy matcher finds for `(\d+):(\d+):(\d+)\.(\d+)` is a match in the declarative sense |
| ProgressText.ClockSpanComplete | src/monica/executor.py:76 | every declarative match of the clock pattern at a position is the one the matcher reports, so the match is unique |
| ProgressText.MatchAtComplete | src/monica/executor.py:76 | every declarative match of key, whitespace and clock at a position is what MatchAt reports |
| ProgressText.MatchAtSound | src/monica/executor.py:76 | whatever MatchAt reports is a declarative match of the whole pattern at that position |
| ProgressText.FirstSomeNone | src/monica/executor.py:76 | the search finds nothing exactly when no attempt from the start position succeeds |
| ProgressText.FirstSomeLeftmost | src/monica/executor.py:76 | the search returns the leftmost successful attempt |
| ProgressText.ParsedNonNegative | src/monica/executor.py:79 | a parsed duration or time is never negative |
| ProgressText.EmptyLineParsesToNone | src/monica/executor.py:74-89 | the empty line parses to None under both parsers |
| ProgressText.Seconds | src/monica/executor.py:78-79 | the combination of the four groups is non-negative |
| ProgressText.DigitRunEnd | src/monica/executor.py:76 | the greedy `\d` run at a position: every character inside is a digit and the next one is not |
| ProgressText.TwoDigitClockMatch | src/monica/executor.py:76-78 | an `HH:MM:SS.CC` clock not followed by a digit matches the clock pattern, and its groups read as the two-digit values |
| ProgressText.FirstKeyMatch | src/monica/executor.py:76 | a pattern match at a position before which the key's first character never occurs is the leftmost one, so re.search reports it |
| ProgressText.ParseDurationFirst | src/monica/executor.py:74-80 | a line whose first `D` starts `Duration:`, followed by whitespace and an `HH:MM:SS.CC` clock, reads as h*3600 + m*60 + s + cc/100 of that clock |
| ProgressText.ParseTimeFirst | src/monica/executor.py:83-89 | a line whose first `t` starts `time=`, directly followed by an `HH:MM:SS.CC` clock, reads as that clock's value |
| ProgressText.TwoDigitClockInLine | src/monica/executor.py:76 | such a clock keeps its place and groups when text is put before it and a non-digit after it |
| ProgressText.ParseDurationInLine | src/monica/executor.py:74-80 | parse_duration of prefix + `Duration:` clause + rest is the clause's clock value when the prefix has no `D` and the rest does not start with a digit |
| ProgressText.ParseTimeInLine | src/monica/executor.py:83-89 | parse_time of prefix + `time=` clause + rest is the clause's clock value when the prefix has no `t` and the rest does not start with a digit |
| ProgressText.DurationExample | tests/test_executor.py:24-29 | the banner line "  Duration: 00:02:30.50, start: 0.000000" reads as 150.5 seconds |
| ProgressText.TimeExample | tests/test_executor.py:69-74 | the status line "frame=  100 fps= 30 time=00:01:15.50 bitrate=1000kbps" reads as 75.5 seconds |
| ProgressText.TimeExampleHours | tests/test_executor.py:76-81 | "time=02:30:45.00" reads as 9045 seconds |
| ProgressBar.Trunc | src/monica/executor.py:106 | `int()` of a float truncates toward zero: a floor for x >= 0 and a ceiling below 0 |
| ProgressBar.BarShape | src/monica/executor.py:106-107 | for 0 <= percent <= 100 the bar has width cells: the first int(width*percent/100) are full and the rest empty; the full count is the largest whole number of cells within the share |
| ProgressBar.FilledMonotone | src/monica/executor.py:106 | a larger percentage never fills fewer cells |
| ProgressBar.FilledEnds | src/monica/executor.py:106 | 100% fills every cell and 0% fills none |
| MonicaDisplay.Clamp | src/monica/executor.py:94-95 | a negative time counts as 0, and any other time is unchanged |
| MonicaDisplay.TimeFieldsWhole | src/monica/executor.py:96-98 | the hour, minute and second fields are those of the whole seconds: minutes and seconds below 60, and together they give the whole seconds back |
| MonicaDisplay.FormatTimeReadsBack | src/monica/executor.py:92-101 | below an hour the text is exactly MM:SS; from an hour on it is HH:MM:SS with at least two hour digits; each field is zero-padded digits, and reading them back gives the clamped whole seconds |
| MonicaDisplay.FormatTimeExamples | src/monica/executor.py:92-101 | 3725 s renders as "01:02:05" and -10 s as "00:00" |
| MonicaDisplay.PollFrameSpec | src/monica/executor.py:210-220 | a poll draws the bar exactly when the duration is positive and a positive time was read; the percentage lies in (0, 99.9], equals time/duration*100 unless capped, and is 99.9 once the time reaches 99.9% of the duration; eta*percent = elapsed*(100-percent), and the ETA is never negative for a non-negative elapsed time; otherwise the spinner shows the elapsed time |
| MonicaDisplay.DisplayProgressBar | src/monica/executor.py:104-115 | the ETA is shown exactly when it is positive and the percentage is below 100 |
| MonicaDisplay.SpinnerFrame | src/monica/executor.py:219 | the spinner character for an elapsed time is one of the ten frames |
| MonicaDisplay.PollBarNeverFull | src/monica/executor.py:210-215 | a bar drawn while polling has 30 cells and its last one is empty; it shows an ETA exactly when the ETA is positive |
| MonicaDisplay.FinalBarFull | src/monica/executor.py:226-227 | the bar drawn when the conversion succeeds has all 30 cells full and no ETA |
| Naming.FormatName | src/monica/executor.py:68 | the format name does not start with a dot, has no lower-case letter, and is no longer than the extension |
| Naming.OutputNameShape | src/monica/executor.py:61-71 | the name is the stem, '_', the timestamp, then '_', the format name, "_converted" and the extension, in that order; it ends with the extension (src/executor.py:14-24 holds the same code) |
| Naming.OutputNameInjective | src/monica/executor.py:66-70 | for a fixed timestamp and extension, different stems never give the same output name |
| Naming.OutputSuffix | src/monica/executor.py:61-71 | for an extension such as ".mp4", pathlib reads the output's suffix as that extension and its stem as everything before it |
| Paths.PathText | src/monica/executor.py:138 | `str(path)` ends with the file name |
| Paths.Child | src/monica/executor.py:71 | `export_dir / name`: the path lies in export_dir and its name is name |
| Paths.StemSuffixSplit | src/file_selector.py:24 | stem + suffix is the name; a suffix is empty, or a dot and at least one more character with no further dot; a non-empty suffix leaves a non-empty stem |
| Paths.SuffixOfDotted | src/monica/executor.py:66 | a non-empty stem followed by a dotted extension splits back into that stem and that extension |
| JobCommon.FirstTruthyAt | src/monica/executor.py:169-172 | the probe loop stops at the first truthy parse and keeps it |
| JobCommon.FirstTruthyNone | src/monica/executor.py:169-172 | when no parse is truthy the loop runs out, and `duration` keeps the last line's parse |
| JobCommon.ProbeDurationFirst | src/monica/executor.py:169-172 | when line k of the probe's stderr is the first whose parse_duration is truthy, that parse is the duration; zero and None parses do not stop the loop |
| JobCommon.ProbeDurationNone | src/monica/executor.py:169-172 | when no line's parse is truthy, the duration is the last line's parse, which is falsy: the duration stays unknown |
| JobCommon.ProbeScan | src/monica/executor.py:160-172 | the loop over `stderr.split("\n")` leaves in `duration` the probe's duration as specified above |
| JobCommon.TimeoutHandlerAsWritten | src/monica/executor.py:236-239 | the TimeoutExpired handler as written escapes (UnboundLocalError) exactly when `process` is unbound |
| JobCommon.TimeoutHandler | src/monica/executor.py:236-239 | the corrected handler always returns (False, "Process timed out") |
| JobCommon.Names | src/monica/executor.py:276 | the item names are the files' names, in order |
| JobCommon.Texts | src/monica/executor.py:265 | the job-start list is `str(f)` of each file, in order |
| JobCommon.FinishItem | src/monica/executor.py:280-285 | adds the item-end record with the outcome, then on failure "Error processing <name>: <error>" |
| MonicaExecutor.CommandShape | src/monica/executor.py:136-142 | the command is ffmpeg, "-i", the input, "-y", then the recipe arguments unchanged and in order, then the output path last |
| MonicaExecutor.Window | src/monica/executor.py:204 | `stderr_output[-20:]` holds 20 lines, or every line when there are fewer |
| MonicaExecutor.WindowIsTail | src/monica/executor.py:204 | the window is the tail of the buffer, line for line |
| MonicaExecutor.LatestBeforeAt | src/monica/executor.py:204-208 | scanning newest first, the first truthy parse met is the one kept |
| MonicaExecutor.LatestBeforeNone | src/monica/executor.py:203-208 | with no truthy parse the current time stays 0 |
| MonicaExecutor.LatestTimeFound | src/monica/executor.py:203-208 | when line k of the last 20 is the newest with a truthy parse_time, that parse is the current time, and it is positive |
| MonicaExecutor.LatestTimeNone | src/monica/executor.py:203-208 | when none of the last 20 lines parses truthily, the current time is 0; older lines are never consulted |
| MonicaExecutor.PollScan | src/monica/executor.py:203-208 | the reversed loop over the window computes the current time as specified above |
| MonicaExecutor.FramesIndex | src/monica/executor.py:198-220 | on pass i the poll loop draws the frame of pass i's own elapsed time and stderr lines |
| MonicaExecutor.Draw | src/monica/executor.py:200-220 | one poll pass scans the stderr lines received so far, then draws the bar or the spinner |
| MonicaExecutor.Poll | src/monica/executor.py:198-220 | the poll loop draws one frame per pass, in order |
| MonicaExecutor.RunOutcome | src/monica/executor.py:151-242 | with the corrected handler every run returns a `(success, error)` pair |
| MonicaExecutor.ProbeTimeoutEscapes | src/monica/executor.py:161-166 | as written, a probe timeout makes run_ffmpeg_job raise instead of returning "Process timed out"; every other run ends the same under both handlers |
| MonicaExecutor.RunReportSpec | src/monica/executor.py:144-242 | with the corrected handler: success exactly when the probe and the conversion ran and the exit code is 0, with an empty error; the debug record of the command comes first; a non-zero exit reports the joined stderr and logs "FFmpeg failed: " with it; a probe timeout reports "Process timed out"; a run whose probe does not time out reports what the handler as written reports |
| MonicaExecutor.RunJob | src/monica/executor.py:118-242 | run_ffmpeg_job with the corrected handler returns the run's success and error, appends exactly the run's records to the log, and draws the poll frames plus the full bar on success; without a probe timeout the result is that of the handler as written |
| MonicaExecutor.ProcessFile | src/monica/executor.py:270-285 | with the corrected handler, one iteration logs item start, the run's records, item end and, on failure, the "Error processing" record; it returns the file's success |
| MonicaExecutor.RunUntilFailure | src/monica/executor.py:270-291 | with the corrected handler, the loop attempts files in order: either every file succeeded and all were logged, or file k is the first failure and exactly files 0..k were logged |
| MonicaExecutor.RunItems | src/monica/executor.py:270-295 | with the corrected handler, the result is whether every file succeeded; the loop's records are the attempted files' records followed by one job-end record with that result |
| MonicaExecutor.ExecuteJobs | src/monica/executor.py:245-295 | with the corrected handler, execute_jobs returns true exactly when every file succeeded; the log is job start with every input, then each attempted file's records in order up to and including the first failure, then one job end |
| LegacyExecutor.CommandShape | src/executor.py:69-77 | the command is ffmpeg, "-i", the input, "-y", "-progress", "pipe:1", "-nostats", then the recipe arguments unchanged and in order, then the output path last |
| LegacyExecutor.BarLineShape | src/executor.py:45-49 | for 0..100 the bar has 40 cells, '=' exactly for the first int(40*percent/100) and '-' after them; at 100 every cell is '=' |
| LegacyExecutor.OutTimeSplit | src/executor.py:124 | in the stripped `out_time=` line the first '=' ends the key, so `split("=")[1]` is what follows the key up to the next '=' |
| LegacyExecutor.OutTimeFieldSpec | src/executor.py:122-124 | the field is a prefix with no '=' of the stripped line's rest after the key, and it runs to the end or to a '=' |
| LegacyExecutor.OutTimeSpec | src/executor.py:125-128 | re.match: a time exactly when the clock pattern matches at the field's start; then h*3600 + m*60 + s + us/1000000 |
| LegacyExecutor.PercentSpec | src/executor.py:130-131 | a percentage exactly when the duration is positive; it lies in [0, 100] and equals time/duration*100 unless capped |
| LegacyExecutor.LineStepBounded | src/executor.py:122-137 | the share a single line draws lies between 0 and 100 |
| LegacyExecutor.DrawsBounded | src/executor.py:117-137 | every share the read loop draws lies between 0 and 100 |
| LegacyExecutor.DrawsStopAtEnd | src/executor.py:134-137 | the first `progress=end` draws 100 and stops the loop: the draws are those of the earlier lines followed by 100, and no later line is read |
| LegacyExecutor.DrawnBars | src/executor.py:130-135 | every bar drawn has 40 cells, and the bar drawn for 100 is full |
| LegacyExecutor.ReadProgress | src/executor.py:114-137 | the readline loop draws exactly the specified shares, in order |
| LegacyExecutor.RunOutcome | src/executor.py:82-153 | with the corrected handler every run returns a `(success, error)` pair |
| LegacyExecutor.ProbeTimeoutEscapes | src/executor.py:149-151 | as written, a probe timeout makes run_ffmpeg_job raise; a timeout of the final wait is reported as "Process timed out"; every other run ends the same under both handlers |
| LegacyExecutor.RunReportSpec | src/executor.py:139-153 | with the corrected handler: success exactly when both processes ran, the wait did not time out and the exit code is 0, with an empty error; the command is logged first; a non-zero exit reports the stderr and logs "FFmpeg failed: " with it; either timeout reports "Process timed out"; a run whose probe does not time out reports what the handler as written reports |
| LegacyExecutor.RunJob | src/executor.py:52-153 | run_ffmpeg_job with the corrected handler returns the run's success and error, appends exactly the run's records to the log, and draws the read loop's shares; without a probe timeout the result is that of the handler as written |
| LegacyExecutor.ProcessFile | src/executor.py:181-196 | with the corrected handler, one iteration logs item start, the run's records, item end and, on failure, the "Error processing" record |
| LegacyExecutor.RunUntilFailure | src/executor.py:181-202 | with the corrected handler, the files are attempted in order up to and including the first failure |
| LegacyExecutor.RunItems | src/executor.py:181-206 | with the corrected handler, the result is whether every file succeeded; the attempted files' records are followed by one job-end record |
| LegacyExecutor.ExecuteJobs | src/executor.py:156-206 | with the corrected handler, the same fail-fast result and log as the newer executor |
| Batch.AttemptedFrom | src/monica/executor.py:270-291 | the attempted count from position i: every earlier file from i on succeeded, and it stops after the first failure or at the end |
| Batch.Attempted | src/monica/executor.py:270-291 | all files are attempted when all succeed; otherwise up to and including the first failing one |
| Batch.FailFast | src/monica/executor.py:283-291 | when file k fails first, exactly files 0..k are attempted, the trace ends with file k's failure records and a FAILED job end, and no later file appears |
| Batch.AllAttempted | src/monica/executor.py:270-295 | when every file succeeds, every file is attempted in order and the job ends with SUCCESS |
| Batch.ItemsSplit | src/monica/executor.py:270-281 | the records of files i..n-1 are those of i..m-1 followed by those of m..n-1, so file blocks appear in file order |
| Batch.ItemBlockShape | src/monica/executor.py:276-285 | each file's block starts with item start and ends with item end, or after a failure with item end and then the failure record |
| Batch.EmptyBatch | src/monica/executor.py:264-295 | with no files the log is the job-start header for 0 files and a SUCCESS job end |
| Batch.TraceEnds | src/monica/executor.py:264-295 | the trace opens with the job-start header naming the file count and closes with one job-end record carrying the overall result |
| Logging.StatusText | src/monica/logger.py:74 | "SUCCESS" exactly for true and "FAILED" exactly for false |
| Logging.JobStartRecords | src/monica/logger.py:66-70 | job_start logs the header, then one "  - <f>" line per file in input order |
| Logging.JobStartHeaderCount | src/monica/logger.py:68 | the number in the job-start header reads back as the file count |
| Logging.StatusReadsBack | src/monica/logger.py:72-84 | the job-end and item-end messages end in SUCCESS exactly on success and in FAILED otherwise |
| Logging.MonicaLogger.constructor | src/monica/logger.py:16-19 | the bare instance `__new__` creates is not yet configured and has logged nothing |
| Logging.MonicaLogger.Init | src/monica/logger.py:21-32 | `__init__` configures the logger the first time, with the given or default logs directory, and afterwards changes nothing |
| Logging.MonicaLogger.Log | src/monica/logger.py:50-64 | a forwarder appends one record with its level and the message unchanged |
| Logging.MonicaLogger.Info | src/monica/logger.py:50-52 | one Info record with the message |
| Logging.MonicaLogger.Warning | src/monica/logger.py:54-56 | one Warning record with the message |
| Logging.MonicaLogger.Error | src/monica/logger.py:58-60 | one Error record with the message |
| Logging.MonicaLogger.Debug | src/monica/logger.py:62-64 | one Debug record with the message |
| Logging.MonicaLogger.JobStart | src/monica/logger.py:66-70 | appends exactly the job-start records |
| Logging.MonicaLogger.JobEnd | src/monica/logger.py:72-75 | appends exactly "JOB END: Recipe '<name>' - SUCCESS/FAILED" |
| Logging.MonicaLogger.ItemStart | src/monica/logger.py:77-79 | appends exactly "ITEM START: <filename>" |
| Logging.MonicaLogger.ItemEnd | src/monica/logger.py:81-84 | appends exactly "ITEM END: <filename> - SUCCESS/FAILED" |
| Logging.Registry.constructor | src/monica/logger.py:13-14 | at start-up neither the instance nor the global exists |
| Logging.Registry.NewMonicaLogger | src/monica/logger.py:16-32 | `MonicaLogger(dir)` returns the one instance, creating and configuring it the first time, and otherwise leaves its records and directory as they were |
| Logging.Registry.GetLogger | src/monica/logger.py:88-96 | get_logger constructs the logger only while the global is unset, and returns that same object on every later call, with or without a directory; when `MonicaLogger(dir)` already made the instance, the first call returns that instance with its records and directory unchanged |
| Recipes.CategoryLookup | src/recipes.py:426-438 | a category has recipes exactly when it is one of the six keys, and every recipe returned has that category; any other string, the empty one included, gets [] |
| Recipes.ListsOfTheirCategory | src/recipes.py:28-433 | each built-in list is non-empty and holds recipes of its own category only |
| Recipes.CatalogSizes | src/recipes.py:28-145 | VIDEO_RECIPES has 6 entries and AUDIO_RECIPES 8 |
| Recipes.ToDict | src/recipes.py:19-20 | to_dict has one key per dataclass field |
| Recipes.FromDict | src/recipes.py:22-24 | from_dict accepts only dictionaries whose keys are fields and include the four fields without a default; a dictionary whose values have their fields' kinds is accepted exactly then |
| Recipes.DictRoundTrip | src/recipes.py:19-24 | from_dict(to_dict(r)) reproduces every field of r |
| Recipes.DictRoundTripBack | src/recipes.py:19-24 | a dictionary that from_dict accepts is, with the defaults filled in, the to_dict of the recipe it builds |
| Recipes.FromDictRefuses | src/recipes.py:22-24 | a key that is not a field, or a missing field without a default, makes from_dict fail |
| Recipes.RecipeTable.Copy | src/recipes.py:443 | dict.copy() is a new object with the same entries |
| Recipes.NewBuiltinTable | src/recipes.py:426-433 | the module's BUILTIN_RECIPES object holds the six lists under their keys |
| Recipes.GetAllRecipes | src/recipes.py:441-443 | get_all_recipes returns a new dictionary with the same entries as BUILTIN_RECIPES |
| Recipes.AddToCopy | src/recipes.py:441-443 | adding a key to the copy gives the copy that key and leaves BUILTIN_RECIPES unchanged |
| Recipes.GetInputExtensionsForCategory | src/recipes.py:470-476 | the result is strictly sorted, has no repeats, and holds exactly the input extensions of the category's recipes; an unknown category gives [] |
| Recipes.InputExtensionUnion | src/recipes.py:473-476 | the set.update loop followed by sorted(): sorted, repeat-free, and exactly the union of the recipes' input extensions |
| Recipes.SortedList | src/recipes.py:476 | sorted(set): every element once, in string order |
| FileSelector.KeptMembers | src/file_selector.py:21-25 | a path is appended exactly when some entry with that path is a file whose lower-cased suffix is wanted, or when there is no list |
| FileSelector.SortByNameCorrect | src/file_selector.py:27 | sorted(key=name.lower()) is ordered by lower-cased name and is a permutation of its input |
| FileSelector.SortByNameStable | src/file_selector.py:27 | the sort is stable: the paths sharing a lower-cased name come out in the order they went in |
| FileSelector.GetFilesInDirectory | src/file_selector.py:8-27 | a missing directory gives []; otherwise the result is the kept entries sorted by lower-cased name, as a permutation |
| FileSelector.ListedAreWanted | src/file_selector.py:22-25 | every listed path comes from a file entry whose lower-cased suffix is in the list, or from any file when there is no list; subdirectories never appear |
| FileSelector.SelectFiles | src/file_selector.py:45-76 | select_files gives [] when no file is listed or when the picker is cancelled, and otherwise the picker's choice |
| FileSelector.UnitIndex | src/file_selector.py:79-85 | the unit is B below 1024, KB below 1024², MB below 1024³, GB below 1024⁴, and TB from there on |
| FileSelector.FormatSize | src/file_selector.py:79-85 | the loop's unit is the one above, and the number shown times 1024^k is the byte count |

## Left out

- The `ProgressIndicator` spinner thread and its start and stop calls are not modelled: this is concurrency and terminal redraw. The spinner frame of the poll loop is modelled.
- Printing is not modelled: colour codes, `\r` redraws, the `%5.1f` and `.1f` number formats, the "Duration: …" line and the batch's console messages. The model keeps the values these lines are built from.
- Launching processes, the stderr drain thread, `sleep` and `poll()` are not modelled. A run is given as the outputs its processes produced and the stderr lines each poll pass saw.
- Clocks are parameters. `datetime.now()` becomes a timestamp string for each file, and `time.time()` becomes the elapsed seconds of each poll pass.
- `last_percent` in the newer executor is assigned and never read, so it is not modelled.
- LegacyExecutor.ReadProgress: `readline` returns "" only at the end of the stream, and the loop spins on "" until `poll()` sees the process exit. The model ends the loop at the first "" line and does not model the busy wait.
- In the older executor a failed `out_time` match leaves `current_time` as it was. No share is drawn from that stale value, so the model keeps no `current_time`.
- The older executor imports `.logger`, and src/logger.py is not part of this model. Both executors log through the `MonicaLogger` of src/monica/logger.py, which has the same method names.
- The newer executor imports `monica.recipes`, and src/monica/recipes.py is not part of this model. Both executors use the `Recipe` of src/recipes.py.
- The log file is not modelled: the `RotatingFileHandler`, the formatter, the directory creation and the default path `Path(__file__).parent.parent / "logs"`, which becomes the string "logs".
- `log_info`, `log_warning`, `log_error` and `log_debug` are not modelled separately: each is `get_logger()` followed by one of the forwarders above.
- `load_custom_recipes` and `save_custom_recipes` are not modelled: they are JSON file I/O.
- Only the sort and filter of `select_files` are modelled. The questionary picker is a function parameter, and the file sizes shown in its choices are not modelled.
- FileSelector.FormatSize: returns the number and the unit rather than the formatted text.
- Text.Lower, Text.Upper: change only ASCII letters, so non-ASCII case mapping is not modelled.
- ProgressText.ParseDurationSpec, ProgressText.ParseTimeSpec and LegacyExecutor.OutTimeSpec: `\d` and `int()` are restricted to ASCII digits, while Python also accepts other Unicode decimal digits.
- Floating point is replaced by exact `real` arithmetic. Rounding in the float divisions, in `min` and in the ETA is not modelled.
- Recipes.GetAllRecipes: lists are values in the model, so it does not capture that Python's shallow copy shares the recipe lists with BUILTIN_RECIPES.
- Paths.PathText: a path is a directory text and a name. Path normalisation is not modelled.
- Recipes.FromDict: a value of the wrong kind, such as a list for `name`, is refused, while the dataclass would store it unchecked. The model's `Recipe` has typed fields and cannot hold such a value.
- RunReportSpec (MonicaExecutor.RunReportSpec and LegacyExecutor.RunReportSpec): these state the report of the corrected timeout handler. As written, a probe timeout raises UnboundLocalError instead of reporting "Process timed out"; that behaviour is stated by MonicaExecutor.ProbeTimeoutEscapes and LegacyExecutor.ProbeTimeoutEscapes.
- RunJob (MonicaExecutor.RunJob and LegacyExecutor.RunJob): these return the corrected handler's result. As written, a probe timeout makes `run_ffmpeg_job` raise after logging only the command (ProbeTimeoutEscapes).
- ProcessFile (MonicaExecutor.ProcessFile and LegacyExecutor.ProcessFile): these use the corrected handler. As written, a probe timeout leaves only item start and the command record, with no item end (ProbeTimeoutEscapes).
- RunUntilFailure (MonicaExecutor.RunUntilFailure and LegacyExecutor.RunUntilFailure): these use the corrected handler, so a probe timeout counts as a failure. As written, it aborts the loop with an exception (ProbeTimeoutEscapes).
- RunItems (MonicaExecutor.RunItems and LegacyExecutor.RunItems): these use the corrected handler. As written, no job-end record follows a probe timeout (ProbeTimeoutEscapes).
- ExecuteJobs (MonicaExecutor.ExecuteJobs and LegacyExecutor.ExecuteJobs): these use the corrected handler and return false after a probe timeout. As written, `execute_jobs` raises out of the batch instead (ProbeTimeoutEscapes).

## Findings

| source | as written | input that shows it | evidently intended | confidence | as-written member | corrected member |
|---|---|---|---|---|---|---|
| src/monica/executor.py:161-166,236-239 | the `except subprocess.TimeoutExpired` handler calls `process.kill()`, but the only call with a timeout in the `try` is the probe `subprocess.run(..., timeout=60)`, which runs before `process` is assigned; the UnboundLocalError raised in the handler escapes `run_ffmpeg_job` and `execute_jobs` | a probe that runs past 60 seconds | report `(False, "Process timed out")` and kill the conversion only when one exists | not executed | MonicaExecutor.RunOutcomeAsWritten, JobCommon.TimeoutHandlerAsWritten, MonicaExecutor.ProbeTimeoutEscapes | MonicaExecutor.RunOutcome, JobCommon.TimeoutHandler |
| src/executor.py:92-97,149-151 | the same handler in the older executor; there the probe has `timeout=30`, and the final `process.wait(timeout=60)` is the only timeout that finds `process` bound | a probe that runs past 30 seconds | report `(False, "Process timed out")` for either timeout | not executed | LegacyExecutor.RunOutcomeAsWritten, JobCommon.TimeoutHandlerAsWritten, LegacyExecutor.ProbeTimeoutEscapes | LegacyExecutor.RunOutcome, JobCommon.TimeoutHandler |
