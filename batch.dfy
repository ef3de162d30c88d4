/**
  The log trace of `execute_jobs`, which both executors define identically:
  `job_start` with every input, then for each file in order `item_start`,
  whatever the single-file run logged, and `item_end`; a failing file adds
  an "Error processing" record and ends the job at once, and `job_end`
  closes the trace with the overall result.

  A single-file run is summarised by an ItemReport: the `(success, error)`
  pair it returned and the records it logged.
*/
module Batch {
  import opened Logging

  datatype ItemReport = ItemReport(success: bool, message: string, records: seq<Record>)

  predicate AllSucceed(reports: seq<ItemReport>) {
    forall i :: 0 <= i < |reports| ==> reports[i].success
  }

  function FailureRecord(name: string, message: string): Record {
    Record(Error, "Error processing " + name + ": " + message)
  }

  /** What one loop iteration logs for the file with the given name. */
  function ItemRecords(name: string, report: ItemReport): seq<Record> {
    [ItemStartRecord(name)] + report.records +
    (if report.success then [ItemEndRecord(name, true)]
     else [ItemEndRecord(name, false), FailureRecord(name, report.message)])
  }

  /** The records of files i..n-1, in order. */
  function ItemsFromTo(names: seq<string>, reports: seq<ItemReport>, i: nat, n: nat): seq<Record>
    requires |names| == |reports| && i <= n <= |reports|
    decreases n - i
  {
    if i == n then [] else ItemsFromTo(names, reports, i, n - 1) + ItemRecords(names[n - 1], reports[n - 1])
  }

  /** One past the first failing position at or after i, or |reports| if none fails. */
  function AttemptedFrom(reports: seq<ItemReport>, i: nat): (k: nat)
    requires i <= |reports|
    ensures i <= k <= |reports|
    ensures forall j :: i <= j < k - 1 ==> reports[j].success
    ensures k == |reports| || (k > i && !reports[k - 1].success)
    ensures (forall j :: i <= j < |reports| ==> reports[j].success) ==> k == |reports|
    decreases |reports| - i
  {
    if i == |reports| then i
    else if !reports[i].success then i + 1
    else AttemptedFrom(reports, i + 1)
  }

  /**
    How many files `execute_jobs` attempts: all of them when every one
    succeeds, and otherwise up to and including the first failing one.
  */
  function Attempted(reports: seq<ItemReport>): (k: nat)
    ensures k <= |reports|
    ensures AllSucceed(reports) ==> k == |reports|
    ensures !AllSucceed(reports) ==> 0 < k && !reports[k - 1].success && forall j :: 0 <= j < k - 1 ==> reports[j].success
  {
    AttemptedFrom(reports, 0)
  }

  /** The item records of the loop: every attempted file, in order. */
  function ItemsTrace(names: seq<string>, reports: seq<ItemReport>): seq<Record>
    requires |names| == |reports|
  {
    ItemsFromTo(names, reports, 0, Attempted(reports))
  }

  /** The whole log of `execute_jobs`. */
  function Trace(recipeName: string, fileTexts: seq<string>, names: seq<string>, reports: seq<ItemReport>): seq<Record>
    requires |names| == |reports|
  {
    JobStartRecords(fileTexts, recipeName) + ItemsTrace(names, reports) + [JobEndRecord(AllSucceed(reports), recipeName)]
  }

  /**
    Fail-fast: if file k fails and every file before it succeeds, exactly
    files 0..k are attempted, the last item records come from file k's
    failure, and the job ends FAILED; nothing about a later file is logged.
  */
  lemma FailFast(recipeName: string, fileTexts: seq<string>, names: seq<string>, reports: seq<ItemReport>, k: nat)
    requires |names| == |reports| && k < |reports|
    requires forall j :: 0 <= j < k ==> reports[j].success
    requires !reports[k].success
    ensures Attempted(reports) == k + 1
    ensures ItemsTrace(names, reports) == ItemsFromTo(names, reports, 0, k) + ItemRecords(names[k], reports[k])
    ensures Trace(recipeName, fileTexts, names, reports) ==
            JobStartRecords(fileTexts, recipeName) + ItemsFromTo(names, reports, 0, k) + ItemRecords(names[k], reports[k])
            + [JobEndRecord(false, recipeName)]
  {
    assert !AllSucceed(reports);
  }

  /** When every file succeeds, each one is attempted, in order, and the job ends SUCCESS. */
  lemma AllAttempted(recipeName: string, fileTexts: seq<string>, names: seq<string>, reports: seq<ItemReport>)
    requires |names| == |reports| && AllSucceed(reports)
    ensures ItemsTrace(names, reports) == ItemsFromTo(names, reports, 0, |reports|)
    ensures Trace(recipeName, fileTexts, names, reports) ==
            JobStartRecords(fileTexts, recipeName) + ItemsFromTo(names, reports, 0, |reports|) + [JobEndRecord(true, recipeName)]
  {
  }

  /**
    In order: the records of files i..n-1 are those of i..m-1 followed by
    those of m..n-1; in particular file i's block comes after every earlier
    file's block and before every later one's.
  */
  lemma {:induction false} ItemsSplit(names: seq<string>, reports: seq<ItemReport>, i: nat, m: nat, n: nat)
    requires |names| == |reports| && i <= m <= n <= |reports|
    ensures ItemsFromTo(names, reports, i, n) == ItemsFromTo(names, reports, i, m) + ItemsFromTo(names, reports, m, n)
    decreases n - m
  {
    if m < n {
      ItemsSplit(names, reports, i, m, n - 1);
    }
  }

  /** Every item block starts with item_start and ends with item_end or, after a failure, the failure record. */
  lemma ItemBlockShape(name: string, report: ItemReport)
    ensures var b := ItemRecords(name, report);
            && b[0] == ItemStartRecord(name)
            && (report.success ==> b[|b| - 1] == ItemEndRecord(name, true))
            && (!report.success ==> b[|b| - 2] == ItemEndRecord(name, false) && b[|b| - 1] == FailureRecord(name, report.message))
  {
  }

  /** With no files the job logs its header, no file lines, no items, and SUCCESS. */
  lemma EmptyBatch(recipeName: string)
    ensures Trace(recipeName, [], [], []) ==
            [Record(Info, JobStartHeader(0, recipeName)), JobEndRecord(true, recipeName)]
  {
    assert JobStartRecords([], recipeName) == [Record(Info, JobStartHeader(0, recipeName))];
  }

  /** The trace opens with the job-start header and closes with the one job-end record. */
  lemma TraceEnds(recipeName: string, fileTexts: seq<string>, names: seq<string>, reports: seq<ItemReport>)
    requires |names| == |reports|
    ensures var t := Trace(recipeName, fileTexts, names, reports);
            && |t| >= 2
            && t[0] == Record(Info, JobStartHeader(|fileTexts|, recipeName))
            && t[|t| - 1] == JobEndRecord(AllSucceed(reports), recipeName)
  {
  }
}
