/**
  The older executor's `run_ffmpeg_job` and `execute_jobs`. FFmpeg is asked
  to write its progress to stdout as `key=value` lines (`-progress pipe:1`);
  the read loop takes them one at a time and draws a 40-cell bar of '=' and
  '-' for each time it can turn into a share of the duration. The processes
  are not run: a run is described by the probe's outcome and the
  conversion's (an error at launch, or its stdout lines, whether the final
  wait ran out of time, its stderr and its exit code).
*/
module LegacyExecutor {
  import opened Wrappers
  import opened Text
  import opened Paths
  import opened ProgressText
  import opened ProgressBar
  import opened Logging
  import opened Batch
  import opened Naming
  import opened Recipes
  import opened Sequences
  import opened JobCommon

  /** The conversion command: `[ffmpeg, "-i", input, "-y", "-progress", "pipe:1", "-nostats", *args, output]`. */
  function Command(ffmpeg: string, input: FilePath, output: FilePath, args: seq<string>): seq<string> {
    [ffmpeg, "-i", PathText(input), "-y", "-progress", "pipe:1", "-nostats"] + args + [PathText(output)]
  }

  /** The recipe's arguments sit unchanged and in order between the seven fixed words and the output path, which comes last. */
  lemma CommandShape(ffmpeg: string, input: FilePath, output: FilePath, args: seq<string>)
    ensures var cmd := Command(ffmpeg, input, output, args);
            && |cmd| == |args| + 8
            && cmd[..7] == [ffmpeg, "-i", PathText(input), "-y", "-progress", "pipe:1", "-nostats"]
            && cmd[7..|cmd| - 1] == args
            && cmd[|cmd| - 1] == PathText(output)
  {
    var cmd := Command(ffmpeg, input, output, args);
    assert cmd[7..|cmd| - 1] == args;
  }

  // display_progress_bar, with its default width

  const BarWidth := 40
  const FullCell := '='
  const EmptyCell := '-'

  /** What one call of `display_progress_bar` draws, before the percentage is formatted. */
  datatype BarLine = BarLine(bar: string, percent: real)

  function DisplayProgressBar(percent: real): BarLine {
    BarLine(Bar(BarWidth, percent, FullCell, EmptyCell), percent)
  }

  /**
    For a percentage between 0 and 100 the bar has 40 cells, the first
    `int(40 * percent / 100)` of them '=' and the rest '-'; at 100 every
    cell is '='.
  */
  lemma BarLineShape(percent: real)
    requires 0.0 <= percent <= 100.0
    ensures var l := DisplayProgressBar(percent);
            && |l.bar| == BarWidth
            && (forall i :: 0 <= i < BarWidth ==> (l.bar[i] == FullCell <==> i < Filled(BarWidth, percent)))
            && (percent == 100.0 ==> forall i :: 0 <= i < BarWidth ==> l.bar[i] == FullCell)
  {
    BarShape(BarWidth, percent, FullCell, EmptyCell);
    FilledEnds(BarWidth);
  }

  // The lines of the progress stream

  const OutTimeKey := "out_time="
  const ProgressEndKey := "progress=end"
  /** The last group of `out_time` counts microseconds. */
  const MicroDivisor := 1000000

  /** In the stripped line, the first '=' is the one that ends the key. */
  lemma OutTimeSplit(line: string)
    requires StartsWith(line, OutTimeKey)
    ensures var t := Strip(line);
            && StartsWith(t, OutTimeKey)
            && |Split(t, '=')| >= 2
            && Split(t, '=')[1] == Split(t[|OutTimeKey|..], '=')[0]
  {
    StripKeepsPrefix(line, OutTimeKey);
    var t := Strip(line);
    assert t[..|OutTimeKey|] == OutTimeKey;
    forall j | 0 <= j < |OutTimeKey| - 1
      ensures t[j] != '='
    {
      assert t[j] == OutTimeKey[j];
    }
    SplitAt(t, '=', |OutTimeKey| - 1);
  }

  /** `line.strip().split("=")[1]` for a line that starts with `out_time=`. */
  function OutTimeField(line: string): string
    requires StartsWith(line, OutTimeKey)
  {
    OutTimeSplit(line);
    Split(Strip(line), '=')[1]
  }

  /** The stripped line after the key. */
  function OutTimeRest(line: string): (rest: string)
    requires StartsWith(line, OutTimeKey)
    ensures Strip(line) == OutTimeKey + rest
  {
    StripKeepsPrefix(line, OutTimeKey);
    var t := Strip(line);
    assert t == t[..|OutTimeKey|] + t[|OutTimeKey|..];
    t[|OutTimeKey|..]
  }

  /**
    The field is what follows the key in the stripped line, up to the next
    '=' or to the end: a prefix of that rest with no '=' in it.
  */
  lemma OutTimeFieldSpec(line: string)
    requires StartsWith(line, OutTimeKey)
    ensures var rest := OutTimeRest(line);
            var f := OutTimeField(line);
            && StartsWith(rest, f) && '=' !in f
            && (f == rest || rest[|f|] == '=')
  {
    OutTimeSplit(line);
    var rest := OutTimeRest(line);
    assert Strip(line)[|OutTimeKey|..] == rest;
    var f := Split(rest, '=')[0];
    assert f == OutTimeField(line);
    SplitFirst(rest, '=');
    var k := IndexOf(rest, '=');
    if k != -1 {
      assert f == rest[..k];
      assert forall j :: 0 <= j < |f| ==> f[j] == rest[j];
    }
  }

  /** `re.match(r"(\d+):(\d+):(\d+)\.(\d+)", field)`, read as h*3600 + m*60 + s + us/1000000. */
  function OutTime(field: string): Option<real> {
    match ClockSpan(field, 0)
    case Some(sp) =>
      ClockSpanSound(field, 0);
      Some(Seconds(Groups(field, 0, sp), MicroDivisor))
    case None => None
  }

  /**
    re.match's contract: a time exactly when the clock pattern matches at
    the start of the field, and then that match's groups with the last one
    in microseconds.
  */
  lemma OutTimeSpec(field: string)
    ensures OutTime(field).None? <==> forall sp :: !ClockMatch(field, 0, sp)
    ensures forall sp :: ClockMatch(field, 0, sp) ==> OutTime(field) == Some(Seconds(Groups(field, 0, sp), MicroDivisor))
  {
    forall sp | ClockMatch(field, 0, sp)
      ensures OutTime(field) == Some(Seconds(Groups(field, 0, sp), MicroDivisor))
    {
      ClockSpanComplete(field, 0, sp);
    }
    if OutTime(field).Some? {
      ClockSpanSound(field, 0);
    }
  }

  /** The share drawn for a time: only when the duration is truthy and positive, capped at 100. */
  function Percent(duration: Option<real>, current: real): Option<real> {
    if Truthy(duration) && duration.value > 0.0 then Some(Min(100.0, (current / duration.value) * 100.0)) else None
  }

  /** A time read from the stream gives a share between 0 and 100, equal to the time over the duration unless capped. */
  lemma PercentSpec(duration: Option<real>, current: real)
    requires current >= 0.0
    ensures Percent(duration, current).Some? <==> duration.Some? && duration.value > 0.0
    ensures var p := Percent(duration, current);
            p.Some? ==>
              && 0.0 <= p.value <= 100.0
              && (p.value < 100.0 ==> p.value * duration.value == current * 100.0)
  {
    var p := Percent(duration, current);
    if p.Some? {
      var d := duration.value;
      var ratio := (current / d) * 100.0;
      assert ratio * d == current * 100.0;
      assert current / d >= 0.0;
    }
  }

  /** What the read loop does with one line: draw a share, draw 100 and stop, or nothing. */
  datatype Step = Show(percent: real) | Finish | Skip

  function LineStep(duration: Option<real>, line: string): Step {
    if StartsWith(line, OutTimeKey) then
      match OutTime(OutTimeField(line))
      case Some(t) =>
        (match Percent(duration, t)
         case Some(p) => Show(p)
         case None => Skip)
      case None => Skip
    else if StartsWith(line, ProgressEndKey) then Finish
    else Skip
  }

  /**
    The shares the read loop draws for the lines of stdout, in order. An
    empty line is the end of the stream (`readline` returns "" only there);
    `progress=end` draws a full bar and ends the loop.
  */
  function Draws(duration: Option<real>, lines: seq<string>): seq<real>
    decreases |lines|
  {
    if |lines| == 0 || lines[0] == "" then []
    else
      match LineStep(duration, lines[0])
      case Show(p) => [p] + Draws(duration, lines[1..])
      case Finish => [100.0]
      case Skip => Draws(duration, lines[1..])
  }

  /** A line draws a share between 0 and 100, if it draws one. */
  lemma LineStepBounded(duration: Option<real>, line: string)
    ensures LineStep(duration, line).Show? ==> 0.0 <= LineStep(duration, line).percent <= 100.0
  {
    if StartsWith(line, OutTimeKey) {
      var t := OutTime(OutTimeField(line));
      if t.Some? {
        PercentSpec(duration, t.value);
      }
    }
  }

  /** Every share drawn lies between 0 and 100, so every bar drawn fits its 40 cells. */
  lemma {:induction false} DrawsBounded(duration: Option<real>, lines: seq<string>)
    ensures forall i :: 0 <= i < |Draws(duration, lines)| ==> 0.0 <= Draws(duration, lines)[i] <= 100.0
    decreases |lines|
  {
    if |lines| > 0 && lines[0] != "" {
      LineStepBounded(duration, lines[0]);
      if !LineStep(duration, lines[0]).Finish? {
        DrawsBounded(duration, lines[1..]);
      }
    }
  }

  /**
    On the first `progress=end` line the loop draws 100 and stops: the
    draws are those of the lines before it followed by 100, and no later
    line is read.
  */
  lemma {:induction false} DrawsStopAtEnd(duration: Option<real>, lines: seq<string>, k: nat)
    requires k < |lines| && StartsWith(lines[k], ProgressEndKey)
    requires forall j :: 0 <= j < k ==> lines[j] != "" && !LineStep(duration, lines[j]).Finish?
    ensures Draws(duration, lines) == Draws(duration, lines[..k]) + [100.0]
    decreases k
  {
    if k == 0 {
      assert lines[0][0] == 'p';
      assert !StartsWith(lines[0], OutTimeKey);
    } else {
      DrawsStopAtEnd(duration, lines[1..], k - 1);
      assert lines[..k][1..] == lines[1..][..k - 1];
    }
  }

  /** Every bar the read loop draws is 40 cells wide, and the one drawn for `progress=end` is full. */
  lemma DrawnBars(duration: Option<real>, lines: seq<string>)
    ensures forall i :: 0 <= i < |Draws(duration, lines)| ==>
              |DisplayProgressBar(Draws(duration, lines)[i]).bar| == BarWidth
    ensures forall i :: 0 <= i < |Draws(duration, lines)| && Draws(duration, lines)[i] == 100.0 ==>
              forall c :: 0 <= c < BarWidth ==> DisplayProgressBar(100.0).bar[c] == FullCell
  {
    var ds := Draws(duration, lines);
    DrawsBounded(duration, lines);
    forall i | 0 <= i < |ds|
      ensures |DisplayProgressBar(ds[i]).bar| == BarWidth
    {
      BarLineShape(ds[i]);
    }
    BarLineShape(100.0);
  }

  /** The read loop of `run_ffmpeg_job`: the shares drawn, in order. */
  method ReadProgress(duration: Option<real>, stdout: seq<string>) returns (percents: seq<real>)
    ensures percents == Draws(duration, stdout)
  {
    percents := [];
    var i := 0;
    while i < |stdout|
      invariant 0 <= i <= |stdout|
      invariant percents + Draws(duration, stdout[i..]) == Draws(duration, stdout)
    {
      var line := stdout[i];
      assert stdout[i..][0] == line && stdout[i..][1..] == stdout[i + 1..];
      if line == "" {
        assert percents + [] == percents;
        return;
      }
      if StartsWith(line, OutTimeKey) {
        var field := OutTimeField(line);
        var current := OutTime(field);
        if current.Some? {
          var percent := Percent(duration, current.value);
          if percent.Some? {
            AppendAssoc(percents, [percent.value], Draws(duration, stdout[i + 1..]));
            percents := percents + [percent.value];
          }
        }
      } else if StartsWith(line, ProgressEndKey) {
        percents := percents + [100.0];
        return;
      }
      i := i + 1;
    }
    assert percents + [] == percents;
  }

  // run_ffmpeg_job

  datatype Conversion =
    | LaunchRaised(error: string)
    | Converted(stdout: seq<string>, waitTimedOut: bool, stderr: string, exitCode: int)

  datatype RunInput = RunInput(probe: ProbeOutcome, conversion: Conversion)

  /**
    The outcome with the handler as written. The probe's timeout comes
    before `process` exists; the final `wait`'s comes after.
  */
  function RunOutcomeAsWritten(run: RunInput): Outcome {
    match run.probe
    case ProbeTimedOut => TimeoutHandlerAsWritten(false)
    case ProbeRaised(e) => Returned(false, e)
    case ProbeExited(_) =>
      match run.conversion
      case LaunchRaised(e) => Returned(false, e)
      case Converted(_, waitTimedOut, stderr, code) =>
        if waitTimedOut then TimeoutHandlerAsWritten(true)
        else if code != 0 then Returned(false, stderr)
        else Returned(true, "")
  }

  /** The outcome with the corrected handler: every run comes back with a result. */
  function RunOutcome(run: RunInput): (o: Outcome)
    ensures o.Returned?
  {
    match run.probe
    case ProbeTimedOut => TimeoutHandler(false)
    case ProbeRaised(e) => Returned(false, e)
    case ProbeExited(_) =>
      match run.conversion
      case LaunchRaised(e) => Returned(false, e)
      case Converted(_, waitTimedOut, stderr, code) =>
        if waitTimedOut then TimeoutHandler(true)
        else if code != 0 then Returned(false, stderr)
        else Returned(true, "")
  }

  /**
    As written, a probe that times out makes `run_ffmpeg_job` raise; a wait
    that times out is reported as "Process timed out" by both handlers, and
    every other run ends the same way under both.
  */
  lemma ProbeTimeoutEscapes(run: RunInput)
    ensures run.probe.ProbeTimedOut? ==>
              RunOutcomeAsWritten(run) == Escaped && RunOutcome(run) == Returned(false, TimedOutMessage)
    ensures !run.probe.ProbeTimedOut? ==> RunOutcomeAsWritten(run) == RunOutcome(run)
    ensures run.probe.ProbeExited? && run.conversion.Converted? && run.conversion.waitTimedOut ==>
              RunOutcomeAsWritten(run) == Returned(false, TimedOutMessage)
  {
  }

  /** The conversion ran to the end and exited with a non-zero code. */
  predicate ConversionFailed(run: RunInput) {
    run.probe.ProbeExited? && run.conversion.Converted? && !run.conversion.waitTimedOut && run.conversion.exitCode != 0
  }

  /** The records `run_ffmpeg_job` logs: the command, and the stderr when FFmpeg fails. */
  function RunRecords(cmd: seq<string>, run: RunInput): seq<Record> {
    [CommandRecord(cmd)] +
    (if ConversionFailed(run) then [Record(Error, "FFmpeg failed: " + run.conversion.stderr)] else [])
  }

  function RunReport(cmd: seq<string>, run: RunInput): ItemReport {
    var o := RunOutcome(run);
    ItemReport(o.success, o.message, RunRecords(cmd, run))
  }

  /** The shares drawn: those of the read loop, whenever the conversion was started. */
  function RunDraws(run: RunInput): seq<real> {
    if run.probe.ProbeExited? && run.conversion.Converted? then
      Draws(ProbeDuration(run.probe.stderr), run.conversion.stdout)
    else []
  }

  /**
    With the corrected handler, a run succeeds exactly when the probe and
    the conversion both ran, the final wait did not time out and the exit
    code is 0, and then reports no error; it logs the command first; a
    failing conversion reports and logs its stderr; a timeout of either
    process reports "Process timed out". Every run whose probe does not
    time out reports what the handler as written reports.
  */
  lemma RunReportSpec(cmd: seq<string>, run: RunInput)
    ensures var r := RunReport(cmd, run);
            && (r.success <==> run.probe.ProbeExited? && run.conversion.Converted?
                               && !run.conversion.waitTimedOut && run.conversion.exitCode == 0)
            && |r.records| >= 1 && r.records[0] == CommandRecord(cmd)
            && (r.success ==> r.message == "" && r.records == [CommandRecord(cmd)])
            && (ConversionFailed(run) ==>
                  r.message == run.conversion.stderr
                  && r.records == [CommandRecord(cmd), Record(Error, "FFmpeg failed: " + r.message)])
            && (run.probe.ProbeTimedOut? || (run.probe.ProbeExited? && run.conversion.Converted? && run.conversion.waitTimedOut)
                ==> !r.success && r.message == TimedOutMessage && r.records == [CommandRecord(cmd)])
            && (!run.probe.ProbeTimedOut? ==> RunOutcomeAsWritten(run) == Returned(r.success, r.message))
  {
  }

  /**
    `run_ffmpeg_job` with the corrected timeout handler, given the outcomes
    of its processes. For every run whose probe does not time out this is
    also the outcome of the handler as written.
  */
  method RunJob(logger: MonicaLogger, ffmpeg: string, input: FilePath, output: FilePath, recipe: Recipe, run: RunInput)
    returns (success: bool, error: string, percents: seq<real>)
    requires logger.configured
    modifies logger
    ensures var r := RunReport(Command(ffmpeg, input, output, recipe.ffmpegArgs), run);
            success == r.success && error == r.message
            && logger.lines == old(logger.lines) + r.records
    ensures !run.probe.ProbeTimedOut? ==> RunOutcomeAsWritten(run) == Returned(success, error)
    ensures percents == RunDraws(run)
    ensures logger.configured && logger.logsDir == old(logger.logsDir)
  {
    var cmd := Command(ffmpeg, input, output, recipe.ffmpegArgs);
    ghost var start := logger.lines;
    logger.Debug("Running command: " + Join(cmd, " "));
    assert logger.lines + [] == logger.lines;
    percents := [];
    match run.probe
    case ProbeTimedOut =>
      return false, TimedOutMessage, [];
    case ProbeRaised(e) =>
      return false, e, [];
    case ProbeExited(probeStderr) =>
      var duration := ProbeScan(probeStderr);
      match run.conversion
      case LaunchRaised(e) =>
        return false, e, [];
      case Converted(stdout, waitTimedOut, stderr, code) =>
        percents := ReadProgress(duration, stdout);
        if waitTimedOut {
          return false, TimedOutMessage, percents;
        }
        if code != 0 {
          logger.Error("FFmpeg failed: " + stderr);
          AppendAssoc(start, [CommandRecord(cmd)], [Record(Error, "FFmpeg failed: " + stderr)]);
          return false, stderr, percents;
        }
        return true, "", percents;
  }

  // execute_jobs

  /** The report of one file's run, with the output name built from its timestamp. */
  function FileReport(ffmpeg: string, file: FilePath, recipe: Recipe, exportDir: string, timestamp: string,
                      run: RunInput): ItemReport {
    RunReport(Command(ffmpeg, file, OutputPath(file, recipe.extension, exportDir, timestamp), recipe.ffmpegArgs), run)
  }

  /** The reports of files 0..n-1. */
  function ReportsUpTo(ffmpeg: string, files: seq<FilePath>, recipe: Recipe, exportDir: string,
                       timestamps: seq<string>, runs: seq<RunInput>, n: nat): (r: seq<ItemReport>)
    requires |timestamps| == |files| && |runs| == |files| && n <= |files|
    ensures |r| == n
  {
    if n == 0 then []
    else ReportsUpTo(ffmpeg, files, recipe, exportDir, timestamps, runs, n - 1)
         + [FileReport(ffmpeg, files[n - 1], recipe, exportDir, timestamps[n - 1], runs[n - 1])]
  }

  function Reports(ffmpeg: string, files: seq<FilePath>, recipe: Recipe, exportDir: string,
                   timestamps: seq<string>, runs: seq<RunInput>): (r: seq<ItemReport>)
    requires |timestamps| == |files| && |runs| == |files|
    ensures |r| == |files|
  {
    ReportsUpTo(ffmpeg, files, recipe, exportDir, timestamps, runs, |files|)
  }

  lemma {:induction false} ReportsIndex(ffmpeg: string, files: seq<FilePath>, recipe: Recipe, exportDir: string,
                                        timestamps: seq<string>, runs: seq<RunInput>, n: nat, i: nat)
    requires |timestamps| == |files| && |runs| == |files| && i < n <= |files|
    ensures ReportsUpTo(ffmpeg, files, recipe, exportDir, timestamps, runs, n)[i]
            == FileReport(ffmpeg, files[i], recipe, exportDir, timestamps[i], runs[i])
    decreases n
  {
    if i < n - 1 {
      ReportsIndex(ffmpeg, files, recipe, exportDir, timestamps, runs, n - 1, i);
    }
  }

  /**
    One iteration of the loop of `execute_jobs` on file i, with the corrected
    timeout handler: item start, the run, item end, and on failure the
    "Error processing" record.
  */
  method ProcessFile(logger: MonicaLogger, ffmpeg: string, files: seq<FilePath>, recipe: Recipe, exportDir: string,
                     timestamps: seq<string>, runs: seq<RunInput>, i: nat, ghost reports: seq<ItemReport>)
    returns (success: bool)
    requires logger.configured
    requires |timestamps| == |files| && |runs| == |files| && i < |files|
    requires reports == Reports(ffmpeg, files, recipe, exportDir, timestamps, runs)
    modifies logger
    ensures success == reports[i].success && logger.lines == old(logger.lines) + ItemRecords(files[i].name, reports[i])
    ensures logger.configured
  {
    ReportsIndex(ffmpeg, files, recipe, exportDir, timestamps, runs, |files|, i);
    ghost var before := logger.lines;
    var file := files[i];
    var output := OutputPath(file, recipe.extension, exportDir, timestamps[i]);
    logger.ItemStart(file.name);
    var error, percents;
    success, error, percents := RunJob(logger, ffmpeg, file, output, recipe, runs[i]);
    FinishItem(logger, file.name, success, error, reports[i], before);
  }

  /**
    The loop of `execute_jobs`, with the corrected timeout handler: the
    files in order until one fails. It
    stops at the first failing file k, having logged files 0..k, or runs
    through every file.
  */
  method RunUntilFailure(logger: MonicaLogger, ffmpeg: string, files: seq<FilePath>, recipe: Recipe, exportDir: string,
                         timestamps: seq<string>, runs: seq<RunInput>, ghost reports: seq<ItemReport>) returns (k: nat)
    requires logger.configured
    requires |timestamps| == |files| && |runs| == |files|
    requires reports == Reports(ffmpeg, files, recipe, exportDir, timestamps, runs)
    modifies logger
    ensures k <= |files| && (forall j :: 0 <= j < k ==> reports[j].success)
    ensures k == |files| ==> logger.lines == old(logger.lines) + ItemsFromTo(Names(files), reports, 0, k)
    ensures k < |files| ==> !reports[k].success
                             && logger.lines == old(logger.lines) + ItemsFromTo(Names(files), reports, 0, k + 1)
    ensures logger.configured
  {
    ghost var names := Names(files);
    ghost var start := logger.lines;
    k := 0;
    while k < |files|
      invariant k <= |files|
      invariant logger.configured
      invariant logger.lines == start + ItemsFromTo(names, reports, 0, k)
      invariant forall j :: 0 <= j < k ==> reports[j].success
    {
      var success := ProcessFile(logger, ffmpeg, files, recipe, exportDir, timestamps, runs, k, reports);
      assert names[k] == files[k].name;
      AppendAssoc(start, ItemsFromTo(names, reports, 0, k), ItemRecords(names[k], reports[k]));
      if !success {
        return;
      }
      k := k + 1;
    }
  }

  /**
    The loop and its exits, with the corrected timeout handler: job end with
    FAILED after the first failing file, or with SUCCESS after the last file.
  */
  method RunItems(logger: MonicaLogger, ffmpeg: string, files: seq<FilePath>, recipe: Recipe, exportDir: string,
                  timestamps: seq<string>, runs: seq<RunInput>, ghost reports: seq<ItemReport>) returns (ok: bool)
    requires logger.configured
    requires |timestamps| == |files| && |runs| == |files|
    requires reports == Reports(ffmpeg, files, recipe, exportDir, timestamps, runs)
    modifies logger
    ensures ok == AllSucceed(reports)
    ensures logger.lines == old(logger.lines) + ItemsTrace(Names(files), reports) + [JobEndRecord(ok, recipe.name)]
    ensures logger.configured
  {
    var k := RunUntilFailure(logger, ffmpeg, files, recipe, exportDir, timestamps, runs, reports);
    if k < |files| {
      logger.JobEnd(false, recipe.name);
      FailFast(recipe.name, [], Names(files), reports, k);
      return false;
    }
    logger.JobEnd(true, recipe.name);
    AllAttempted(recipe.name, [], Names(files), reports);
    return true;
  }

  /**
    `execute_jobs` with the corrected timeout handler (as written, a probe
    timeout raises out of it; see ProbeTimeoutEscapes): the result is
    whether every file succeeded, and the log
    is the batch trace of the runs: job start, each attempted file's records
    in order up to and including the first failure, and one job end.
  */
  method ExecuteJobs(logger: MonicaLogger, ffmpeg: string, files: seq<FilePath>, recipe: Recipe, exportDir: string,
                     timestamps: seq<string>, runs: seq<RunInput>) returns (ok: bool)
    requires logger.configured
    requires |timestamps| == |files| && |runs| == |files|
    modifies logger
    ensures var reports := Reports(ffmpeg, files, recipe, exportDir, timestamps, runs);
            ok == AllSucceed(reports)
            && logger.lines == old(logger.lines) + JobStartRecords(Texts(files), recipe.name)
                               + ItemsTrace(Names(files), reports) + [JobEndRecord(ok, recipe.name)]
    ensures logger.configured
  {
    ghost var reports := Reports(ffmpeg, files, recipe, exportDir, timestamps, runs);
    logger.JobStart(Texts(files), recipe.name);
    ok := RunItems(logger, ffmpeg, files, recipe, exportDir, timestamps, runs, reports);
  }
}
