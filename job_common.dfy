/**
  What the two `run_ffmpeg_job` functions and the two `execute_jobs`
  functions have in common: the debug record of the command, the probe's
  outcome and the loop that reads the duration from its stderr, the two
  exception handlers, the lists of file names and file texts, and the
  records that close one file's iteration.
*/
module JobCommon {
  import opened Wrappers
  import opened Text
  import opened Paths
  import opened ProgressText
  import opened Logging
  import opened Batch
  import opened Sequences

  /** The debug record `run_ffmpeg_job` logs before anything runs. */
  function CommandRecord(cmd: seq<string>): Record {
    Record(Debug, "Running command: " + Join(cmd, " "))
  }

  // The probe loop: each stderr line is parsed in turn until a parse is truthy.

  /** `parse_duration` of each line, in order. */
  function DurationParses(lines: seq<string>): (ps: seq<Option<real>>)
    ensures |ps| == |lines|
  {
    MapPrefix(ParseDuration, lines, |lines|)
  }

  /** What the loop leaves in `duration` when it reaches parse i: the first truthy one, else the last. */
  function FirstTruthy(ps: seq<Option<real>>, i: nat): Option<real>
    requires i < |ps|
    decreases |ps| - i
  {
    if Truthy(ps[i]) || i == |ps| - 1 then ps[i] else FirstTruthy(ps, i + 1)
  }

  function ProbeDuration(stderr: string): Option<real> {
    var lines := Split(stderr, '\n');
    FirstTruthy(DurationParses(lines), 0)
  }

  /** The loop stops at the first truthy parse and keeps it. */
  lemma {:induction false} FirstTruthyAt(ps: seq<Option<real>>, i: nat, k: nat)
    requires i <= k < |ps| && Truthy(ps[k])
    requires forall j :: i <= j < k ==> !Truthy(ps[j])
    ensures FirstTruthy(ps, i) == ps[k]
    decreases k - i
  {
    if i < k {
      FirstTruthyAt(ps, i + 1, k);
    }
  }

  /** When no parse is truthy the loop runs out and `duration` keeps the last one. */
  lemma {:induction false} FirstTruthyNone(ps: seq<Option<real>>, i: nat)
    requires i < |ps|
    requires forall j :: i <= j < |ps| ==> !Truthy(ps[j])
    ensures FirstTruthy(ps, i) == ps[|ps| - 1]
    decreases |ps| - i
  {
    if i < |ps| - 1 {
      FirstTruthyNone(ps, i + 1);
    }
  }

  /** When line k is the first whose `parse_duration` is truthy, that parse is the probe's duration. */
  lemma ProbeDurationFirst(stderr: string, lines: seq<string>, k: nat)
    requires lines == Split(stderr, '\n')
    requires k < |lines| && Truthy(ParseDuration(lines[k]))
    requires forall j :: 0 <= j < k ==> !Truthy(ParseDuration(lines[j]))
    ensures ProbeDuration(stderr) == ParseDuration(lines[k])
  {
    var ps := DurationParses(lines);
    forall j | 0 <= j < k
      ensures !Truthy(ps[j])
    {
      MapPrefixIndex(ParseDuration, lines, |lines|, j);
    }
    MapPrefixIndex(ParseDuration, lines, |lines|, k);
    FirstTruthyAt(ps, 0, k);
  }

  /**
    When no line's `parse_duration` is truthy, the probe's duration is the
    last line's parse, which is itself falsy: no duration is known.
  */
  lemma ProbeDurationNone(stderr: string, lines: seq<string>)
    requires lines == Split(stderr, '\n')
    requires forall j :: 0 <= j < |lines| ==> !Truthy(ParseDuration(lines[j]))
    ensures ProbeDuration(stderr) == ParseDuration(lines[|lines| - 1])
    ensures !Truthy(ProbeDuration(stderr))
  {
    var ps := DurationParses(lines);
    forall j | 0 <= j < |ps|
      ensures !Truthy(ps[j])
    {
      MapPrefixIndex(ParseDuration, lines, |lines|, j);
    }
    FirstTruthyNone(ps, 0);
    MapPrefixIndex(ParseDuration, lines, |lines|, |lines| - 1);
  }

  method ProbeScan(stderr: string) returns (duration: Option<real>)
    ensures duration == ProbeDuration(stderr)
  {
    var lines := Split(stderr, '\n');
    ghost var ps := DurationParses(lines);
    duration := None;
    var i := 0;
    while i < |lines|
      invariant 0 <= i <= |lines|
      invariant i < |lines| ==> FirstTruthy(ps, i) == FirstTruthy(ps, 0)
      invariant i == |lines| ==> duration == FirstTruthy(ps, 0)
    {
      duration := ParseDuration(lines[i]);
      MapPrefixIndex(ParseDuration, lines, |lines|, i);
      if Truthy(duration) {
        break;
      }
      i := i + 1;
    }
  }

  /** How the probe ended: it exited with its stderr, it ran out of time, or it could not be run. */
  datatype ProbeOutcome = ProbeExited(stderr: string) | ProbeTimedOut | ProbeRaised(error: string)

  const TimedOutMessage := "Process timed out"

  /** How `run_ffmpeg_job` ends: with its `(success, error)` pair, or by raising. */
  datatype Outcome = Returned(success: bool, message: string) | Escaped

  /**
    The `except subprocess.TimeoutExpired` handler as written: it calls
    `process.kill()`, which raises UnboundLocalError when `process` has not
    been assigned yet.
  */
  function TimeoutHandlerAsWritten(processBound: bool): (o: Outcome)
    ensures o.Escaped? <==> !processBound
  {
    if processBound then Returned(false, TimedOutMessage) else Escaped
  }

  /** The handler as intended: kill the process if there is one, and report the timeout. */
  function TimeoutHandler(processBound: bool): (o: Outcome)
    ensures o == Returned(false, TimedOutMessage)
  {
    Returned(false, TimedOutMessage)
  }

  function Names(files: seq<FilePath>): (r: seq<string>)
    ensures |r| == |files| && forall i :: 0 <= i < |files| ==> r[i] == files[i].name
  {
    seq(|files|, i requires 0 <= i < |files| => files[i].name)
  }

  function Texts(files: seq<FilePath>): (r: seq<string>)
    ensures |r| == |files| && forall i :: 0 <= i < |files| ==> r[i] == PathText(files[i])
  {
    seq(|files|, i requires 0 <= i < |files| => PathText(files[i]))
  }

  /** After the run: item end with the outcome, then on failure the "Error processing" record. */
  method FinishItem(logger: MonicaLogger, name: string, success: bool, error: string,
                    ghost r: ItemReport, ghost before: seq<Record>)
    requires logger.configured
    requires success == r.success && error == r.message
    requires logger.lines == before + [ItemStartRecord(name)] + r.records
    modifies logger
    ensures logger.lines == before + ItemRecords(name, r)
    ensures logger.configured
  {
    logger.ItemEnd(name, success);
    if !success {
      logger.Error("Error processing " + name + ": " + error);
    }
  }
}
