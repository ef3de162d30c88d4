/**
  The newer executor's `run_ffmpeg_job` and `execute_jobs`. The processes are
  not run: a run is described by what they produced, namely the probe's
  outcome (its stderr, a timeout or an error) and the conversion's (an error
  at launch, or the stderr lines each poll saw, the final stderr, the exit
  code and the elapsed seconds). From that the model computes what the code
  computes: the duration found by the probe loop, the frame each poll draws,
  the `(success, error)` result and the records logged.
*/
module MonicaExecutor {
  import opened Wrappers
  import opened Text
  import opened Paths
  import opened ProgressText
  import opened Logging
  import opened Batch
  import opened Naming
  import opened Recipes
  import opened MonicaDisplay
  import opened JobCommon
  import opened Sequences

  /** The conversion command: `[ffmpeg, "-i", input, "-y", *args, output]`. */
  function Command(ffmpeg: string, input: FilePath, output: FilePath, args: seq<string>): seq<string> {
    [ffmpeg, "-i", PathText(input), "-y"] + args + [PathText(output)]
  }

  /** The recipe's arguments sit unchanged and in order between the fixed head and the output path, which comes last. */
  lemma CommandShape(ffmpeg: string, input: FilePath, output: FilePath, args: seq<string>)
    ensures var cmd := Command(ffmpeg, input, output, args);
            && |cmd| == |args| + 5
            && cmd[..4] == [ffmpeg, "-i", PathText(input), "-y"]
            && cmd[4..|cmd| - 1] == args
            && cmd[|cmd| - 1] == PathText(output)
  {
    var cmd := Command(ffmpeg, input, output, args);
    assert cmd[4..|cmd| - 1] == args;
  }

  // The poll loop's scan: the last 20 lines, newest first, until a `parse_time` is truthy.

  const WindowSize := 20

  /** `stderr_output[-20:]`: the last 20 lines, or all of them when there are fewer. */
  function Window(buffer: seq<string>): (w: seq<string>)
    ensures |w| == if |buffer| < WindowSize then |buffer| else WindowSize
  {
    if |buffer| <= WindowSize then buffer else buffer[|buffer| - WindowSize..]
  }

  /** The window is the buffer's tail: line j of the window is line |buffer| - |w| + j of the buffer. */
  lemma WindowIsTail(buffer: seq<string>, j: nat)
    requires j < |Window(buffer)|
    ensures Window(buffer)[j] == buffer[|buffer| - |Window(buffer)| + j]
  {
  }

  /** `parse_time` of each line, in order. */
  function TimeParses(lines: seq<string>): (ps: seq<Option<real>>)
    ensures |ps| == |lines|
  {
    MapPrefix(ParseTime, lines, |lines|)
  }

  /** Scanning ps[i-1], ps[i-2], …, ps[0]: the first truthy value, else 0. */
  function LatestBefore(ps: seq<Option<real>>, i: nat): real
    requires i <= |ps|
    decreases i
  {
    if i == 0 then 0.0
    else if Truthy(ps[i - 1]) then ps[i - 1].value
    else LatestBefore(ps, i - 1)
  }

  function LatestTime(buffer: seq<string>): real {
    var ps := TimeParses(Window(buffer));
    LatestBefore(ps, |ps|)
  }

  /** Scanning back from i, the first truthy value met is the one returned. */
  lemma {:induction false} LatestBeforeAt(ps: seq<Option<real>>, i: nat, k: nat)
    requires k < i <= |ps| && Truthy(ps[k])
    requires forall j :: k < j < i ==> !Truthy(ps[j])
    ensures LatestBefore(ps, i) == ps[k].value
    decreases i
  {
    if k < i - 1 {
      LatestBeforeAt(ps, i - 1, k);
    }
  }

  lemma {:induction false} LatestBeforeNone(ps: seq<Option<real>>, i: nat)
    requires i <= |ps|
    requires forall j :: 0 <= j < i ==> !Truthy(ps[j])
    ensures LatestBefore(ps, i) == 0.0
    decreases i
  {
    if i > 0 {
      LatestBeforeNone(ps, i - 1);
    }
  }

  /**
    When line k of the last 20 is the newest one with a truthy `parse_time`,
    its time is the current time, and it is positive.
  */
  lemma LatestTimeFound(buffer: seq<string>, w: seq<string>, k: nat)
    requires w == Window(buffer)
    requires k < |w| && Truthy(ParseTime(w[k]))
    requires forall j :: k < j < |w| ==> !Truthy(ParseTime(w[j]))
    ensures LatestTime(buffer) == ParseTime(w[k]).value
    ensures LatestTime(buffer) > 0.0
  {
    var ps := TimeParses(w);
    forall j | k < j < |ps|
      ensures !Truthy(ps[j])
    {
      MapPrefixIndex(ParseTime, w, |w|, j);
    }
    MapPrefixIndex(ParseTime, w, |w|, k);
    LatestBeforeAt(ps, |ps|, k);
    ParsedNonNegative(w[k]);
  }

  /** When none of the last 20 lines has a truthy `parse_time`, the current time is 0 (older lines are never looked at). */
  lemma LatestTimeNone(buffer: seq<string>, w: seq<string>)
    requires w == Window(buffer)
    requires forall j :: 0 <= j < |w| ==> !Truthy(ParseTime(w[j]))
    ensures LatestTime(buffer) == 0.0
  {
    var ps := TimeParses(w);
    forall j | 0 <= j < |ps|
      ensures !Truthy(ps[j])
    {
      MapPrefixIndex(ParseTime, w, |w|, j);
    }
    LatestBeforeNone(ps, |ps|);
  }

  method PollScan(buffer: seq<string>) returns (current: real)
    ensures current == LatestTime(buffer)
  {
    var w := Window(buffer);
    ghost var ps := TimeParses(w);
    current := 0.0;
    var i := |w|;
    while i > 0
      invariant 0 <= i <= |w|
      invariant LatestBefore(ps, i) == LatestTime(buffer)
      invariant current == 0.0
    {
      var t := ParseTime(w[i - 1]);
      MapPrefixIndex(ParseTime, w, |w|, i - 1);
      if Truthy(t) {
        current := t.value;
        break;
      }
      i := i - 1;
    }
  }

  /** One pass of the poll loop: the seconds elapsed and the stderr lines read by then. */
  datatype Tick = Tick(elapsed: real, buffer: seq<string>)

  function TickFrame(duration: Option<real>, tick: Tick): Frame {
    PollFrame(duration, LatestTime(tick.buffer), tick.elapsed)
  }

  /** The frames of the poll loop, one per pass, in order. */
  function Frames(duration: Option<real>, ticks: seq<Tick>): (r: seq<Frame>)
    ensures |r| == |ticks|
  {
    MapPrefix(t => TickFrame(duration, t), ticks, |ticks|)
  }

  /** Pass i draws the frame of its own elapsed time and stderr lines. */
  lemma FramesIndex(duration: Option<real>, ticks: seq<Tick>, i: nat)
    requires i < |ticks|
    ensures Frames(duration, ticks)[i] == TickFrame(duration, ticks[i])
  {
    MapPrefixIndex(t => TickFrame(duration, t), ticks, |ticks|, i);
  }

  /** One pass of the poll loop: scan the recent stderr lines, then choose the bar or the spinner. */
  method Draw(duration: Option<real>, tick: Tick) returns (frame: Frame)
    ensures frame == TickFrame(duration, tick)
  {
    var current := PollScan(tick.buffer);
    frame := PollFrame(duration, current, tick.elapsed);
  }

  /** The poll loop: one frame per pass, in order. */
  method Poll(duration: Option<real>, ticks: seq<Tick>) returns (frames: seq<Frame>)
    ensures frames == Frames(duration, ticks)
  {
    frames := [];
    for i := 0 to |ticks|
      invariant frames == MapPrefix(t => TickFrame(duration, t), ticks, i)
    {
      var frame := Draw(duration, ticks[i]);
      frames := frames + [frame];
    }
  }

  // run_ffmpeg_job

  datatype Conversion =
    | LaunchRaised(error: string)
    | Converted(ticks: seq<Tick>, stderrLines: seq<string>, exitCode: int, elapsed: real)

  datatype RunInput = RunInput(probe: ProbeOutcome, conversion: Conversion)

  /** The outcome with the handler as written. The only timeout in the try block is the probe's, before `process` exists. */
  function RunOutcomeAsWritten(run: RunInput): Outcome {
    match run.probe
    case ProbeTimedOut => TimeoutHandlerAsWritten(false)
    case ProbeRaised(e) => Returned(false, e)
    case ProbeExited(_) =>
      match run.conversion
      case LaunchRaised(e) => Returned(false, e)
      case Converted(_, lines, code, _) => if code == 0 then Returned(true, "") else Returned(false, Join(lines, ""))
  }

  /** The outcome with the corrected handler: every run comes back with a result. */
  function RunOutcome(run: RunInput): (o: Outcome)
    ensures o.Returned?
  {
    match run.probe
    case ProbeTimedOut => TimeoutHandler(false)
    case ProbeRaised(e) => Returned(false, e)
    case ProbeExited(_) =>
      match run.conversion
      case LaunchRaised(e) => Returned(false, e)
      case Converted(_, lines, code, _) => if code == 0 then Returned(true, "") else Returned(false, Join(lines, ""))
  }

  /**
    As written, a probe that times out makes `run_ffmpeg_job` raise instead
    of reporting "Process timed out"; every other run ends the same way
    under both handlers.
  */
  lemma ProbeTimeoutEscapes(run: RunInput)
    ensures run.probe.ProbeTimedOut? ==>
              RunOutcomeAsWritten(run) == Escaped && RunOutcome(run) == Returned(false, TimedOutMessage)
    ensures !run.probe.ProbeTimedOut? ==> RunOutcomeAsWritten(run) == RunOutcome(run)
  {
  }

  /** The conversion ran and exited with a non-zero code. */
  predicate ConversionFailed(run: RunInput) {
    run.probe.ProbeExited? && run.conversion.Converted? && run.conversion.exitCode != 0
  }

  /** The records `run_ffmpeg_job` logs: the command, and the full stderr when FFmpeg fails. */
  function RunRecords(cmd: seq<string>, run: RunInput): seq<Record> {
    [CommandRecord(cmd)] +
    (if ConversionFailed(run) then [Record(Error, "FFmpeg failed: " + Join(run.conversion.stderrLines, ""))] else [])
  }

  function RunReport(cmd: seq<string>, run: RunInput): ItemReport {
    var o := RunOutcome(run);
    ItemReport(o.success, o.message, RunRecords(cmd, run))
  }

  /** The frames drawn: the poll loop's, then the full bar when the conversion succeeds. */
  function RunFrames(run: RunInput): seq<Frame> {
    if run.probe.ProbeExited? && run.conversion.Converted? then
      var duration := ProbeDuration(run.probe.stderr);
      var c := run.conversion;
      Frames(duration, c.ticks) + (if c.exitCode == 0 then [Determinate(100.0, c.elapsed, 0.0)] else [])
    else []
  }

  /**
    With the corrected handler, a run succeeds exactly when the probe and
    the conversion both ran and the conversion exited with 0, and then
    reports no error; it logs the command first; a failing conversion
    reports and logs its whole stderr; a probe timeout reports "Process
    timed out". Every run whose probe does not time out reports what the
    handler as written reports.
  */
  lemma RunReportSpec(cmd: seq<string>, run: RunInput)
    ensures var r := RunReport(cmd, run);
            && (r.success <==> run.probe.ProbeExited? && run.conversion.Converted? && run.conversion.exitCode == 0)
            && |r.records| >= 1 && r.records[0] == CommandRecord(cmd)
            && (r.success ==> r.message == "" && r.records == [CommandRecord(cmd)])
            && (ConversionFailed(run) ==>
                  r.message == Join(run.conversion.stderrLines, "")
                  && r.records == [CommandRecord(cmd), Record(Error, "FFmpeg failed: " + r.message)])
            && (run.probe.ProbeTimedOut? ==> !r.success && r.message == TimedOutMessage)
            && (!run.probe.ProbeTimedOut? ==> RunOutcomeAsWritten(run) == Returned(r.success, r.message))
  {
  }

  /**
    `run_ffmpeg_job` with the corrected timeout handler, given the outcomes
    of its processes. For every run whose probe does not time out this is
    also the outcome of the handler as written.
  */
  method RunJob(logger: MonicaLogger, ffmpeg: string, input: FilePath, output: FilePath, recipe: Recipe, run: RunInput)
    returns (success: bool, error: string, frames: seq<Frame>)
    requires logger.configured
    modifies logger
    ensures var r := RunReport(Command(ffmpeg, input, output, recipe.ffmpegArgs), run);
            success == r.success && error == r.message
            && logger.lines == old(logger.lines) + r.records
    ensures !run.probe.ProbeTimedOut? ==> RunOutcomeAsWritten(run) == Returned(success, error)
    ensures frames == RunFrames(run)
    ensures logger.configured && logger.logsDir == old(logger.logsDir)
  {
    var cmd := Command(ffmpeg, input, output, recipe.ffmpegArgs);
    ghost var start := logger.lines;
    logger.Debug("Running command: " + Join(cmd, " "));
    assert logger.lines + [] == logger.lines;
    frames := [];
    match run.probe
    case ProbeTimedOut =>
      return false, TimedOutMessage, [];
    case ProbeRaised(e) =>
      return false, e, [];
    case ProbeExited(stderr) =>
      var duration := ProbeScan(stderr);
      match run.conversion
      case LaunchRaised(e) =>
        return false, e, [];
      case Converted(ticks, lines, code, elapsed) =>
        frames := Poll(duration, ticks);
        if code == 0 {
          frames := frames + [Determinate(100.0, elapsed, 0.0)];
          return true, "", frames;
        }
        var full := Join(lines, "");
        logger.Error("FFmpeg failed: " + full);
        AppendAssoc(start, [CommandRecord(cmd)], [Record(Error, "FFmpeg failed: " + full)]);
        return false, full, frames;
  }

  // execute_jobs

  /** The report of one file's run, with the output name built from its timestamp. */
  function FileReport(ffmpeg: string, file: FilePath, recipe: Recipe, exportDir: string, timestamp: string,
                      run: RunInput): ItemReport {
    RunReport(Command(ffmpeg, file, OutputPath(file, recipe.extension, exportDir, timestamp), recipe.ffmpegArgs), run)
  }

  /** The reports of files 0..n-1. */
  function ReportsUpTo(ffmpeg: string, files: seq<FilePath>, recipe: Recipe, exportDir: string,
                       timestamps: seq<string>, runs: seq<RunInput>, n: nat): (r: seq<ItemReport>)
    requires |timestamps| == |files| && |runs| == |files| && n <= |files|
    ensures |r| == n
  {
    if n == 0 then []
    else ReportsUpTo(ffmpeg, files, recipe, exportDir, timestamps, runs, n - 1)
         + [FileReport(ffmpeg, files[n - 1], recipe, exportDir, timestamps[n - 1], runs[n - 1])]
  }

  function Reports(ffmpeg: string, files: seq<FilePath>, recipe: Recipe, exportDir: string,
                   timestamps: seq<string>, runs: seq<RunInput>): (r: seq<ItemReport>)
    requires |timestamps| == |files| && |runs| == |files|
    ensures |r| == |files|
  {
    ReportsUpTo(ffmpeg, files, recipe, exportDir, timestamps, runs, |files|)
  }

  lemma {:induction false} ReportsIndex(ffmpeg: string, files: seq<FilePath>, recipe: Recipe, exportDir: string,
                                        timestamps: seq<string>, runs: seq<RunInput>, n: nat, i: nat)
    requires |timestamps| == |files| && |runs| == |files| && i < n <= |files|
    ensures ReportsUpTo(ffmpeg, files, recipe, exportDir, timestamps, runs, n)[i]
            == FileReport(ffmpeg, files[i], recipe, exportDir, timestamps[i], runs[i])
    decreases n
  {
    if i < n - 1 {
      ReportsIndex(ffmpeg, files, recipe, exportDir, timestamps, runs, n - 1, i);
    }
  }

  /**
    One iteration of the loop of `execute_jobs` on file i, with the corrected
    timeout handler: item start, the run, item end, and on failure the
    "Error processing" record.
  */
  method ProcessFile(logger: MonicaLogger, ffmpeg: string, files: seq<FilePath>, recipe: Recipe, exportDir: string,
                     timestamps: seq<string>, runs: seq<RunInput>, i: nat, ghost reports: seq<ItemReport>)
    returns (success: bool)
    requires logger.configured
    requires |timestamps| == |files| && |runs| == |files| && i < |files|
    requires reports == Reports(ffmpeg, files, recipe, exportDir, timestamps, runs)
    modifies logger
    ensures success == reports[i].success && logger.lines == old(logger.lines) + ItemRecords(files[i].name, reports[i])
    ensures logger.configured
  {
    ReportsIndex(ffmpeg, files, recipe, exportDir, timestamps, runs, |files|, i);
    ghost var before := logger.lines;
    var file := files[i];
    var output := OutputPath(file, recipe.extension, exportDir, timestamps[i]);
    logger.ItemStart(file.name);
    var error, frames;
    success, error, frames := RunJob(logger, ffmpeg, file, output, recipe, runs[i]);
    FinishItem(logger, file.name, success, error, reports[i], before);
  }

  /**
    The loop of `execute_jobs`, with the corrected timeout handler: the
    files in order until one fails. It
    stops at the first failing file k, having logged files 0..k, or runs
    through every file.
  */
  method RunUntilFailure(logger: MonicaLogger, ffmpeg: string, files: seq<FilePath>, recipe: Recipe, exportDir: string,
                         timestamps: seq<string>, runs: seq<RunInput>, ghost reports: seq<ItemReport>) returns (k: nat)
    requires logger.configured
    requires |timestamps| == |files| && |runs| == |files|
    requires reports == Reports(ffmpeg, files, recipe, exportDir, timestamps, runs)
    modifies logger
    ensures k <= |files| && (forall j :: 0 <= j < k ==> reports[j].success)
    ensures k == |files| ==> logger.lines == old(logger.lines) + ItemsFromTo(Names(files), reports, 0, k)
    ensures k < |files| ==> !reports[k].success
                             && logger.lines == old(logger.lines) + ItemsFromTo(Names(files), reports, 0, k + 1)
    ensures logger.configured
  {
    ghost var names := Names(files);
    ghost var start := logger.lines;
    k := 0;
    while k < |files|
      invariant k <= |files|
      invariant logger.configured
      invariant logger.lines == start + ItemsFromTo(names, reports, 0, k)
      invariant forall j :: 0 <= j < k ==> reports[j].success
    {
      var success := ProcessFile(logger, ffmpeg, files, recipe, exportDir, timestamps, runs, k, reports);
      assert names[k] == files[k].name;
      AppendAssoc(start, ItemsFromTo(names, reports, 0, k), ItemRecords(names[k], reports[k]));
      if !success {
        return;
      }
      k := k + 1;
    }
  }

  /**
    The loop and its exits, with the corrected timeout handler: job end with
    FAILED after the first failing file, or with SUCCESS after the last file.
  */
  method RunItems(logger: MonicaLogger, ffmpeg: string, files: seq<FilePath>, recipe: Recipe, exportDir: string,
                  timestamps: seq<string>, runs: seq<RunInput>, ghost reports: seq<ItemReport>) returns (ok: bool)
    requires logger.configured
    requires |timestamps| == |files| && |runs| == |files|
    requires reports == Reports(ffmpeg, files, recipe, exportDir, timestamps, runs)
    modifies logger
    ensures ok == AllSucceed(reports)
    ensures logger.lines == old(logger.lines) + ItemsTrace(Names(files), reports) + [JobEndRecord(ok, recipe.name)]
    ensures logger.configured
  {
    var k := RunUntilFailure(logger, ffmpeg, files, recipe, exportDir, timestamps, runs, reports);
    if k < |files| {
      logger.JobEnd(false, recipe.name);
      FailFast(recipe.name, [], Names(files), reports, k);
      return false;
    }
    logger.JobEnd(true, recipe.name);
    AllAttempted(recipe.name, [], Names(files), reports);
    return true;
  }

  /**
    `execute_jobs` with the corrected timeout handler (as written, a probe
    timeout raises out of it; see ProbeTimeoutEscapes): the result is
    whether every file succeeded, and the log
    is the batch trace of the runs: job start, each attempted file's records
    in order up to and including the first failure, and one job end.
  */
  method ExecuteJobs(logger: MonicaLogger, ffmpeg: string, files: seq<FilePath>, recipe: Recipe, exportDir: string,
                     timestamps: seq<string>, runs: seq<RunInput>) returns (ok: bool)
    requires logger.configured
    requires |timestamps| == |files| && |runs| == |files|
    modifies logger
    ensures var reports := Reports(ffmpeg, files, recipe, exportDir, timestamps, runs);
            ok == AllSucceed(reports)
            && logger.lines == old(logger.lines) + JobStartRecords(Texts(files), recipe.name)
                               + ItemsTrace(Names(files), reports) + [JobEndRecord(ok, recipe.name)]
    ensures logger.configured
  {
    ghost var reports := Reports(ffmpeg, files, recipe, exportDir, timestamps, runs);
    logger.JobStart(Texts(files), recipe.name);
    ok := RunItems(logger, ffmpeg, files, recipe, exportDir, timestamps, runs, reports);
  }
}
