/**
  MONICA's logger: every message goes, with its level, to the process-wide
  "monica" logger, which lets every level through. The model keeps the
  records sent so far in `lines`. The job and item messages are built from
  their arguments; the rotating log file, its formatter and its directory
  creation are not part of this model.

  The class is a singleton twice over: `MonicaLogger.__new__` hands out the
  one `_instance`, and `__init__` does nothing once the instance's logger is
  set; on top of that `get_logger` caches the object in a module global. The
  two class-level and module-level variables are the fields of Registry.
*/
module Logging {
  import opened Wrappers
  import opened Text

  datatype Level = Debug | Info | Warning | Error

  datatype Record = Record(level: Level, message: string)

  /** Where the logs go when no directory is given: `logs` beside the package. */
  const DefaultLogsDir := "logs"

  function StatusText(success: bool): (r: string)
    ensures r == "SUCCESS" <==> success
    ensures r == "FAILED" <==> !success
  {
    if success then "SUCCESS" else "FAILED"
  }

  function JobStartHeader(fileCount: nat, recipeName: string): string {
    "JOB START: Recipe '" + recipeName + "' with " + NatToString(fileCount) + " file(s)"
  }

  function FileLine(file: string): string {
    "  - " + file
  }

  /** Everything `job_start` logs: the header, then one line per file in order. */
  function JobStartRecords(files: seq<string>, recipeName: string): (r: seq<Record>)
    ensures |r| == |files| + 1
    ensures r[0] == Record(Info, JobStartHeader(|files|, recipeName))
    ensures forall i :: 0 <= i < |files| ==> r[i + 1] == Record(Info, FileLine(files[i]))
  {
    [Record(Info, JobStartHeader(|files|, recipeName))] + FileRecords(files)
  }

  function FileRecords(files: seq<string>): (r: seq<Record>)
    ensures |r| == |files| && forall i :: 0 <= i < |files| ==> r[i] == Record(Info, FileLine(files[i]))
  {
    seq(|files|, i requires 0 <= i < |files| => Record(Info, FileLine(files[i])))
  }

  lemma FileRecordsSnoc(files: seq<string>, file: string)
    ensures FileRecords(files + [file]) == FileRecords(files) + [Record(Info, FileLine(file))]
  {
    var l := FileRecords(files + [file]);
    var r := FileRecords(files) + [Record(Info, FileLine(file))];
    assert |l| == |r|;
    forall i | 0 <= i < |l|
      ensures l[i] == r[i]
    {
      if i < |files| {
        assert (files + [file])[i] == files[i];
      }
    }
  }

  function JobEndRecord(success: bool, recipeName: string): Record {
    Record(Info, "JOB END: Recipe '" + recipeName + "' - " + StatusText(success))
  }

  function ItemStartRecord(filename: string): Record {
    Record(Info, "ITEM START: " + filename)
  }

  function ItemEndRecord(filename: string, success: bool): Record {
    Record(Info, "ITEM END: " + filename + " - " + StatusText(success))
  }

  /** The count in the job-start header reads back as the number of files. */
  lemma JobStartHeaderCount(fileCount: nat, recipeName: string)
    ensures var h := JobStartHeader(fileCount, recipeName);
            var prefix := "JOB START: Recipe '" + recipeName + "' with ";
            var digits := h[|prefix|..|h| - |" file(s)"|];
            && StartsWith(h, prefix)
            && AllDigits(digits) && DigitsValue(digits) == fileCount
  {
    var prefix := "JOB START: Recipe '" + recipeName + "' with ";
    var n := NatToString(fileCount);
    var h := JobStartHeader(fileCount, recipeName);
    assert h == prefix + n + " file(s)";
    assert h[|prefix|..|h| - |" file(s)"|] == n;
  }

  /** The end messages end in SUCCESS exactly when the outcome was a success, and in FAILED otherwise. */
  lemma StatusReadsBack(success: bool, recipeName: string, filename: string)
    ensures var m := JobEndRecord(success, recipeName).message;
            |m| >= 6 && (m[|m| - 1] == 'S' <==> success) && (m[|m| - 1] == 'D' <==> !success)
    ensures var m := ItemEndRecord(filename, success).message;
            |m| >= 6 && (m[|m| - 1] == 'S' <==> success) && (m[|m| - 1] == 'D' <==> !success)
  {
    var s := StatusText(success);
    var m1 := JobEndRecord(success, recipeName).message;
    var m2 := ItemEndRecord(filename, success).message;
    assert m1 == ("JOB END: Recipe '" + recipeName + "' - ") + s;
    assert m2 == ("ITEM END: " + filename + " - ") + s;
    assert m1[|m1| - 1] == s[|s| - 1];
    assert m2[|m2| - 1] == s[|s| - 1];
  }

  class MonicaLogger {
    /** Whether `__init__` has set the instance's `_logger` attribute. */
    var configured: bool
    var logsDir: string
    /** The records sent to the "monica" logger, oldest first. */
    var lines: seq<Record>

    /** `super().__new__(cls)`: a bare instance that `__init__` has not yet seen. */
    constructor ()
      ensures !configured && lines == [] && logsDir == ""
    {
      configured := false;
      logsDir := "";
      lines := [];
    }

    /** `__init__`: sets the logger up the first time and does nothing afterwards. */
    method Init(dir: Option<string>)
      modifies this
      ensures configured && lines == old(lines)
      ensures old(configured) ==> logsDir == old(logsDir)
      ensures !old(configured) ==> logsDir == (if dir.Some? then dir.value else DefaultLogsDir)
    {
      if configured {
        return;
      }
      logsDir := if dir.Some? then dir.value else DefaultLogsDir;
      configured := true;
    }

    /** The four level forwarders: one record with the message unchanged. */
    method Log(level: Level, message: string)
      requires configured
      modifies this
      ensures lines == old(lines) + [Record(level, message)]
      ensures configured == old(configured) && logsDir == old(logsDir)
    {
      lines := lines + [Record(level, message)];
    }

    method Info(message: string)
      requires configured
      modifies this
      ensures lines == old(lines) + [Record(Level.Info, message)]
      ensures configured == old(configured) && logsDir == old(logsDir)
    {
      Log(Level.Info, message);
    }

    method Warning(message: string)
      requires configured
      modifies this
      ensures lines == old(lines) + [Record(Level.Warning, message)]
      ensures configured == old(configured) && logsDir == old(logsDir)
    {
      Log(Level.Warning, message);
    }

    method Error(message: string)
      requires configured
      modifies this
      ensures lines == old(lines) + [Record(Level.Error, message)]
      ensures configured == old(configured) && logsDir == old(logsDir)
    {
      Log(Level.Error, message);
    }

    method Debug(message: string)
      requires configured
      modifies this
      ensures lines == old(lines) + [Record(Level.Debug, message)]
      ensures configured == old(configured) && logsDir == old(logsDir)
    {
      Log(Level.Debug, message);
    }

    method JobStart(files: seq<string>, recipeName: string)
      requires configured
      modifies this
      ensures lines == old(lines) + JobStartRecords(files, recipeName)
      ensures configured == old(configured) && logsDir == old(logsDir)
    {
      var header := JobStartHeader(|files|, recipeName);
      Info(header);
      ghost var start := lines;
      var i := 0;
      while i < |files|
        invariant 0 <= i <= |files|
        invariant configured == old(configured) && logsDir == old(logsDir)
        invariant lines == start + FileRecords(files[..i])
      {
        Info(FileLine(files[i]));
        FileRecordsSnoc(files[..i], files[i]);
        assert files[..i] + [files[i]] == files[..i + 1];
        i := i + 1;
      }
      assert files[..i] == files;
      assert lines == old(lines) + ([Record(Level.Info, header)] + FileRecords(files));
    }

    method JobEnd(success: bool, recipeName: string)
      requires configured
      modifies this
      ensures lines == old(lines) + [JobEndRecord(success, recipeName)]
      ensures configured == old(configured) && logsDir == old(logsDir)
    {
      var status := StatusText(success);
      Info("JOB END: Recipe '" + recipeName + "' - " + status);
    }

    method ItemStart(filename: string)
      requires configured
      modifies this
      ensures lines == old(lines) + [ItemStartRecord(filename)]
      ensures configured == old(configured) && logsDir == old(logsDir)
    {
      Info("ITEM START: " + filename);
    }

    method ItemEnd(filename: string, success: bool)
      requires configured
      modifies this
      ensures lines == old(lines) + [ItemEndRecord(filename, success)]
      ensures configured == old(configured) && logsDir == old(logsDir)
    {
      var status := StatusText(success);
      Info("ITEM END: " + filename + " - " + status);
    }
  }

  /**
    The process's singleton state: MonicaLogger's `_instance` class
    attribute and the module's global `_logger`.
  */
  class Registry {
    var instance: MonicaLogger?
    var global: MonicaLogger?

    /** The global, once set, is the configured singleton instance. */
    predicate Valid()
      reads this, instance
    {
      && (instance != null ==> instance.configured)
      && (global != null ==> global == instance)
    }

    /** At start-up neither exists. */
    constructor ()
      ensures instance == null && global == null && Valid()
    {
      instance := null;
      global := null;
    }

    /**
      `MonicaLogger(logs_dir)`: `__new__` reuses the one instance (or makes
      it), then `__init__` configures it if it is not configured yet.
    */
    method NewMonicaLogger(dir: Option<string>) returns (l: MonicaLogger)
      requires Valid()
      modifies this, instance
      ensures l == instance && global == old(global) && Valid()
      ensures old(instance) != null ==> l == old(instance) && l.lines == old(instance.lines) && l.logsDir == old(instance.logsDir)
      ensures old(instance) == null ==> fresh(l) && l.lines == [] && l.logsDir == (if dir.Some? then dir.value else DefaultLogsDir)
    {
      if instance == null {
        instance := new MonicaLogger();
      }
      l := instance;
      l.Init(dir);
    }

    /** `get_logger`: constructs the logger only when the global is not set, and returns the global. */
    method GetLogger(dir: Option<string>) returns (l: MonicaLogger)
      requires Valid()
      modifies this, instance
      ensures l == global && l == instance && l.configured && Valid()
      ensures old(global) != null ==> l == old(global) && instance == old(instance) && unchanged(l)
      ensures old(global) == null && old(instance) != null ==>
                l == old(instance) && l.lines == old(instance.lines) && l.logsDir == old(instance.logsDir)
      ensures old(global) == null && old(instance) == null ==>
                fresh(l) && l.lines == [] && l.logsDir == (if dir.Some? then dir.value else DefaultLogsDir)
    {
      if global != null {
        l := global;
        return;
      }
      l := NewMonicaLogger(dir);
      global := l;
    }
  }
}
