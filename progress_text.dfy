/**
  The progress-text parsers of both executors: `parse_duration` reads
  `Duration:\s*(\d+):(\d+):(\d+)\.(\d+)` and `parse_time` reads
  `time=(\d+):(\d+):(\d+)\.(\d+)`, each at the leftmost position where the
  pattern matches, and both give hours*3600 + minutes*60 + seconds + the
  fraction group divided by 100. The two executor files hold the same code.

  Because `\s`, `\d`, `:` and `.` never share a character, the regex engine
  never profits from backtracking here: every group is the maximal run at
  its position. The matcher below is written that way, and the lemmas relate
  it to a declarative description of a match.
*/
module ProgressText {
  import opened Wrappers
  import opened Text

  /** The four captured groups, as `int()` reads them. */
  datatype Clock = Clock(hours: nat, minutes: nat, seconds: nat, fraction: nat)

  const DurationKey := "Duration:"
  const TimeKey := "time="

  /** Python truthiness of a `float | None`: None and 0.0 are both false. */
  predicate Truthy(v: Option<real>) {
    v.Some? && v.value != 0.0
  }

  /** The value of a clock whose fraction group counts 1/divisor units. */
  function Seconds(c: Clock, divisor: nat): (r: real)
    requires divisor > 0
    ensures r >= 0.0
  {
    (c.hours * 3600 + c.minutes * 60 + c.seconds) as real + c.fraction as real / divisor as real
  }

  /** Where the maximal run of digits starting at i ends (the span of a greedy `\d*`). */
  function DigitRunEnd(s: string, i: nat): (j: nat)
    requires i <= |s|
    ensures i <= j <= |s|
    ensures forall k :: i <= k < j ==> IsDigit(s[k])
    ensures j == |s| || !IsDigit(s[j])
    decreases |s| - i
  {
    if i < |s| && IsDigit(s[i]) then DigitRunEnd(s, i + 1) else i
  }

  /** Where the maximal run of whitespace starting at i ends (the span of `\s*`). */
  function SpaceRunEnd(s: string, i: nat): (j: nat)
    requires i <= |s|
    ensures i <= j <= |s|
    ensures forall k :: i <= k < j ==> IsSpace(s[k])
    ensures j == |s| || !IsSpace(s[j])
    decreases |s| - i
  {
    if i < |s| && IsSpace(s[i]) then SpaceRunEnd(s, i + 1) else i
  }

  lemma DigitSlice(s: string, i: nat, j: nat)
    requires i <= j <= |s|
    requires forall k :: i <= k < j ==> IsDigit(s[k])
    ensures AllDigits(s[i..j])
  {
    assert forall k :: 0 <= k < j - i ==> s[i..j][k] == s[i + k];
  }

  /** Where the colons, the point and the end of a clock match sit. */
  datatype Span = Span(a: nat, b: nat, e: nat, d: nat)

  /**
    The declarative reading of a match of `(\d+):(\d+):(\d+)\.(\d+)` at i:
    the two colons sit at a and b, the point at e, every other character of
    s[i..d] is a digit, and the last group is maximal (the regex is greedy).
  */
  predicate ClockMatch(s: string, i: nat, sp: Span) {
    && i < sp.a && sp.a + 1 < sp.b && sp.b + 1 < sp.e && sp.e + 1 < sp.d <= |s|
    && s[sp.a] == ':' && s[sp.b] == ':' && s[sp.e] == '.'
    && (forall k :: i <= k < sp.a ==> IsDigit(s[k]))
    && (forall k :: sp.a < k < sp.b ==> IsDigit(s[k]))
    && (forall k :: sp.b < k < sp.e ==> IsDigit(s[k]))
    && (forall k :: sp.e < k < sp.d ==> IsDigit(s[k]))
    && (sp.d == |s| || !IsDigit(s[sp.d]))
  }

  /** `(\d+):(\d+):(\d+)\.(\d+)` tried at position i: where its parts sit, or None. */
  function ClockSpan(s: string, i: nat): Option<Span>
    requires i <= |s|
  {
    var a := DigitRunEnd(s, i);
    if a == i || a == |s| || s[a] != ':' then None
    else
      var b := DigitRunEnd(s, a + 1);
      if b == a + 1 || b == |s| || s[b] != ':' then None
      else
        var e := DigitRunEnd(s, b + 1);
        if e == b + 1 || e == |s| || s[e] != '.' then None
        else
          var d := DigitRunEnd(s, e + 1);
          if d == e + 1 then None else Some(Span(a, b, e, d))
  }

  /** The four groups a match captures, each read as a decimal number. */
  function Groups(s: string, i: nat, sp: Span): Clock
    requires ClockMatch(s, i, sp)
  {
    DigitSlice(s, i, sp.a);
    DigitSlice(s, sp.a + 1, sp.b);
    DigitSlice(s, sp.b + 1, sp.e);
    DigitSlice(s, sp.e + 1, sp.d);
    Clock(DigitsValue(s[i..sp.a]), DigitsValue(s[sp.a + 1..sp.b]),
          DigitsValue(s[sp.b + 1..sp.e]), DigitsValue(s[sp.e + 1..sp.d]))
  }

  /** Whatever the matcher finds is a declarative match. */
  lemma ClockSpanSound(s: string, i: nat)
    requires i <= |s| && ClockSpan(s, i).Some?
    ensures ClockMatch(s, i, ClockSpan(s, i).value)
  {
  }

  /** A run of digits that is followed by a non-digit is the greedy run. */
  lemma {:induction false} DigitRunEndIs(s: string, i: nat, j: nat)
    requires i <= j <= |s|
    requires forall k :: i <= k < j ==> IsDigit(s[k])
    requires j == |s| || !IsDigit(s[j])
    ensures DigitRunEnd(s, i) == j
    decreases j - i
  {
    if i < j {
      DigitRunEndIs(s, i + 1, j);
    }
  }

  /** Every declarative match is the one the matcher finds: a match at i is unique. */
  lemma ClockSpanComplete(s: string, i: nat, sp: Span)
    requires ClockMatch(s, i, sp)
    ensures ClockSpan(s, i) == Some(sp)
  {
    DigitRunEndIs(s, i, sp.a);
    DigitRunEndIs(s, sp.a + 1, sp.b);
    DigitRunEndIs(s, sp.b + 1, sp.e);
    DigitRunEndIs(s, sp.e + 1, sp.d);
  }

  /** Where the clock starts when the pattern is tried at i and its key is there. */
  function ClockStart(s: string, i: nat, key: string, skipSpace: bool): (j: nat)
    requires i + |key| <= |s|
    ensures i + |key| <= j <= |s|
  {
    if skipSpace then SpaceRunEnd(s, i + |key|) else i + |key|
  }

  /**
    The whole pattern tried at position i: the literal key, then (for
    `Duration:`) any whitespace, then the clock.
  */
  function MatchAt(s: string, i: nat, key: string, skipSpace: bool): Option<Clock>
    requires i <= |s|
  {
    if i + |key| <= |s| && s[i..i + |key|] == key then
      var j := ClockStart(s, i, key, skipSpace);
      match ClockSpan(s, j)
      case Some(sp) =>
        ClockSpanSound(s, j);
        Some(Groups(s, j, sp))
      case None => None
    else None
  }

  /**
    The declarative reading of the whole pattern at i: the key, then
    whitespace up to j (none at all when skipSpace is false), then a clock
    match starting at j.
  */
  predicate PatternMatch(s: string, i: nat, key: string, skipSpace: bool, j: nat, sp: Span) {
    && i + |key| <= j <= |s|
    && s[i..i + |key|] == key
    && (if skipSpace then forall k :: i + |key| <= k < j ==> IsSpace(s[k]) else j == i + |key|)
    && ClockMatch(s, j, sp)
  }

  lemma SpaceThenDigit(s: string, i: nat, j: nat)
    requires i <= j < |s|
    requires forall k :: i <= k < j ==> IsSpace(s[k])
    requires IsDigit(s[j])
    ensures SpaceRunEnd(s, i) == j
  {
  }

  /** Every declarative match of the pattern at i is what MatchAt reports. */
  lemma MatchAtComplete(s: string, i: nat, key: string, skipSpace: bool, j: nat, sp: Span)
    requires PatternMatch(s, i, key, skipSpace, j, sp)
    ensures MatchAt(s, i, key, skipSpace) == Some(Groups(s, j, sp))
  {
    if skipSpace {
      SpaceThenDigit(s, i + |key|, j);
    }
    assert ClockStart(s, i, key, skipSpace) == j;
    ClockSpanComplete(s, j, sp);
  }

  /** Whatever MatchAt reports is a declarative match of the pattern at i. */
  lemma MatchAtSound(s: string, i: nat, key: string, skipSpace: bool)
    requires i <= |s| && MatchAt(s, i, key, skipSpace).Some?
    ensures exists j, sp :: PatternMatch(s, i, key, skipSpace, j, sp)
                            && MatchAt(s, i, key, skipSpace).value == Groups(s, j, sp)
  {
    var j := ClockStart(s, i, key, skipSpace);
    var sp := ClockSpan(s, j).value;
    ClockSpanSound(s, j);
    assert PatternMatch(s, i, key, skipSpace, j, sp);
  }

  /** The outcome of trying the pattern at every position 0..|s|, in order. */
  function Attempts(s: string, key: string, skipSpace: bool): (ms: seq<Option<Clock>>)
    ensures |ms| == |s| + 1
    ensures forall i :: 0 <= i <= |s| ==> ms[i] == MatchAt(s, i, key, skipSpace)
  {
    seq(|s| + 1, i requires 0 <= i <= |s| => MatchAt(s, i, key, skipSpace))
  }

  /** The first successful attempt from position i on. */
  function FirstSome<T>(ms: seq<Option<T>>, i: nat): Option<T>
    requires i <= |ms|
    decreases |ms| - i
  {
    if i == |ms| then None
    else if ms[i].Some? then ms[i]
    else FirstSome(ms, i + 1)
  }

  /** FirstSome finds nothing exactly when no attempt from i on succeeds. */
  lemma {:induction false} FirstSomeNone<T>(ms: seq<Option<T>>, i: nat)
    requires i <= |ms|
    ensures FirstSome(ms, i).None? <==> forall j :: i <= j < |ms| ==> ms[j].None?
    decreases |ms| - i
  {
    if i < |ms| && ms[i].None? {
      FirstSomeNone(ms, i + 1);
    }
  }

  /** What FirstSome finds is the leftmost successful attempt from i on. */
  lemma {:induction false} FirstSomeLeftmost<T>(ms: seq<Option<T>>, i: nat, k: nat)
    requires i <= k < |ms| && ms[k].Some?
    requires forall j :: i <= j < k ==> ms[j].None?
    ensures FirstSome(ms, i) == ms[k]
    decreases k - i
  {
    if i < k {
      FirstSomeLeftmost(ms, i + 1, k);
    }
  }

  /** `re.search`: the match at the first position where the pattern matches. */
  function Search(s: string, key: string, skipSpace: bool): Option<Clock> {
    FirstSome(Attempts(s, key, skipSpace), 0)
  }

  /** `parse_duration`: seconds of the leftmost `Duration:` clock, or None. */
  function ParseDuration(line: string): Option<real> {
    match Search(line, DurationKey, true)
    case Some(c) => Some(Seconds(c, 100))
    case None => None
  }

  /** `parse_time`: seconds of the leftmost `time=` clock, or None. */
  function ParseTime(line: string): Option<real> {
    match Search(line, TimeKey, false)
    case Some(c) => Some(Seconds(c, 100))
    case None => None
  }

  /**
    re.search's contract: nothing is found exactly when no position of s
    matches, and otherwise the match found is the one at the leftmost
    matching position.
  */
  lemma SearchSpec(s: string, key: string, skipSpace: bool)
    ensures Search(s, key, skipSpace).None? <==> forall i :: 0 <= i <= |s| ==> MatchAt(s, i, key, skipSpace).None?
    ensures forall i | 0 <= i <= |s| && MatchAt(s, i, key, skipSpace).Some?
                       && (forall j :: 0 <= j < i ==> MatchAt(s, j, key, skipSpace).None?) ::
              Search(s, key, skipSpace) == MatchAt(s, i, key, skipSpace)
  {
    var ms := Attempts(s, key, skipSpace);
    FirstSomeNone(ms, 0);
    forall i | 0 <= i <= |s| && MatchAt(s, i, key, skipSpace).Some?
               && (forall j :: 0 <= j < i ==> MatchAt(s, j, key, skipSpace).None?)
      ensures Search(s, key, skipSpace) == MatchAt(s, i, key, skipSpace)
    {
      assert forall j :: 0 <= j < i ==> ms[j].None?;
      FirstSomeLeftmost(ms, 0, i);
    }
  }

  /**
    parse_duration's contract: None exactly when no position of the line
    matches, and otherwise the leftmost match's groups combined as
    h*3600 + m*60 + s + frac/100 (the fraction divided by 100 whatever its
    length).
  */
  lemma ParseDurationSpec(line: string)
    ensures ParseDuration(line).None? <==> forall i :: 0 <= i <= |line| ==> MatchAt(line, i, DurationKey, true).None?
    ensures forall i | 0 <= i <= |line| && MatchAt(line, i, DurationKey, true).Some?
                       && (forall j :: 0 <= j < i ==> MatchAt(line, j, DurationKey, true).None?) ::
              ParseDuration(line) == Some(Seconds(MatchAt(line, i, DurationKey, true).value, 100))
  {
    SearchSpec(line, DurationKey, true);
  }

  /** parse_time's contract, the same as parse_duration's with the `time=` key and no whitespace. */
  lemma ParseTimeSpec(line: string)
    ensures ParseTime(line).None? <==> forall i :: 0 <= i <= |line| ==> MatchAt(line, i, TimeKey, false).None?
    ensures forall i | 0 <= i <= |line| && MatchAt(line, i, TimeKey, false).Some?
                       && (forall j :: 0 <= j < i ==> MatchAt(line, j, TimeKey, false).None?) ::
              ParseTime(line) == Some(Seconds(MatchAt(line, i, TimeKey, false).value, 100))
  {
    SearchSpec(line, TimeKey, false);
  }

  /** Both parsers give a non-negative number whenever they give one. */
  lemma ParsedNonNegative(line: string)
    ensures ParseDuration(line).Some? ==> ParseDuration(line).value >= 0.0
    ensures ParseTime(line).Some? ==> ParseTime(line).value >= 0.0
  {
  }

  /** Neither parser finds anything in the empty line. */
  lemma EmptyLineParsesToNone()
    ensures ParseDuration("") == None && ParseTime("") == None
  {
  }

  /** A two-character run of digits reads as a two-digit number. */
  lemma TwoDigits(s: string, i: nat)
    requires i + 2 <= |s| && IsDigit(s[i]) && IsDigit(s[i + 1])
    ensures AllDigits(s[i..i + 2])
    ensures DigitsValue(s[i..i + 2]) == 10 * DigitValue(s[i]) + DigitValue(s[i + 1])
  {
    var t := s[i..i + 2];
    assert t[..1][..0] == [];
    assert DigitsValue(t[..1]) == DigitValue(s[i]);
  }

  /** The value of the two digits at i and i + 1. */
  function TwoDigitValue(s: string, i: nat): (n: nat)
    requires i + 2 <= |s| && IsDigit(s[i]) && IsDigit(s[i + 1])
    ensures n < 100
  {
    10 * DigitValue(s[i]) + DigitValue(s[i + 1])
  }

  /** The clock as the engine prints it, `HH:MM:SS.CC`, starting at j and not followed by a digit. */
  predicate TwoDigitClockAt(s: string, j: nat) {
    && j + 11 <= |s|
    && IsDigit(s[j]) && IsDigit(s[j + 1]) && s[j + 2] == ':'
    && IsDigit(s[j + 3]) && IsDigit(s[j + 4]) && s[j + 5] == ':'
    && IsDigit(s[j + 6]) && IsDigit(s[j + 7]) && s[j + 8] == '.'
    && IsDigit(s[j + 9]) && IsDigit(s[j + 10])
    && (j + 11 == |s| || !IsDigit(s[j + 11]))
  }

  /** The four two-digit groups of such a clock. */
  function TwoDigitClock(s: string, j: nat): Clock
    requires TwoDigitClockAt(s, j)
  {
    Clock(TwoDigitValue(s, j), TwoDigitValue(s, j + 3), TwoDigitValue(s, j + 6), TwoDigitValue(s, j + 9))
  }

  /** A two-digit clock is a clock match whose groups are its two-digit values. */
  lemma TwoDigitClockMatch(s: string, j: nat)
    requires TwoDigitClockAt(s, j)
    ensures ClockMatch(s, j, Span(j + 2, j + 5, j + 8, j + 11))
    ensures Groups(s, j, Span(j + 2, j + 5, j + 8, j + 11)) == TwoDigitClock(s, j)
  {
    TwoDigits(s, j);
    TwoDigits(s, j + 3);
    TwoDigits(s, j + 6);
    TwoDigits(s, j + 9);
  }

  /**
    A pattern match at i when the key's first character occurs nowhere
    before i: no earlier position can match, so re.search reports this one.
  */
  lemma FirstKeyMatch(s: string, key: string, skipSpace: bool, i: nat, j: nat, sp: Span)
    requires |key| > 0 && PatternMatch(s, i, key, skipSpace, j, sp)
    requires forall k :: 0 <= k < i ==> s[k] != key[0]
    ensures Search(s, key, skipSpace) == Some(Groups(s, j, sp))
  {
    MatchAtComplete(s, i, key, skipSpace, j, sp);
    var ms := Attempts(s, key, skipSpace);
    forall k | 0 <= k < i
      ensures ms[k].None?
    {
      if k + |key| <= |s| {
        assert s[k..k + |key|][0] == s[k];
      }
    }
    FirstSomeLeftmost(ms, 0, i);
  }

  /**
    A line whose first `D` starts `Duration:` at i, followed by whitespace up
    to j and an `HH:MM:SS.CC` clock, has that clock's value (the form of the
    engine's banner line).
  */
  lemma ParseDurationFirst(s: string, i: nat, j: nat)
    requires i + |DurationKey| <= j <= |s| && s[i..i + |DurationKey|] == DurationKey
    requires forall k :: 0 <= k < i ==> s[k] != 'D'
    requires forall k :: i + |DurationKey| <= k < j ==> IsSpace(s[k])
    requires TwoDigitClockAt(s, j)
    ensures ParseDuration(s) == Some(Seconds(TwoDigitClock(s, j), 100))
  {
    TwoDigitClockMatch(s, j);
    assert PatternMatch(s, i, DurationKey, true, j, Span(j + 2, j + 5, j + 8, j + 11));
    FirstKeyMatch(s, DurationKey, true, i, j, Span(j + 2, j + 5, j + 8, j + 11));
  }

  /**
    A line whose first `t` starts `time=` at i, directly followed by an
    `HH:MM:SS.CC` clock, has that clock's value (the form of the engine's
    status line).
  */
  lemma ParseTimeFirst(s: string, i: nat)
    requires i + |TimeKey| <= |s| && s[i..i + |TimeKey|] == TimeKey
    requires forall k :: 0 <= k < i ==> s[k] != 't'
    requires TwoDigitClockAt(s, i + |TimeKey|)
    ensures ParseTime(s) == Some(Seconds(TwoDigitClock(s, i + |TimeKey|), 100))
  {
    var j := i + |TimeKey|;
    TwoDigitClockMatch(s, j);
    assert PatternMatch(s, i, TimeKey, false, j, Span(j + 2, j + 5, j + 8, j + 11));
    FirstKeyMatch(s, TimeKey, false, i, j, Span(j + 2, j + 5, j + 8, j + 11));
  }

  /** A two-digit clock that ends a piece of a line stays one inside the whole line. */
  lemma TwoDigitClockInLine(p: string, m: string, q: string, j: nat)
    requires TwoDigitClockAt(m, j) && j + 11 == |m|
    requires |q| == 0 || !IsDigit(q[0])
    ensures TwoDigitClockAt(p + m + q, |p| + j)
    ensures TwoDigitClock(p + m + q, |p| + j) == TwoDigitClock(m, j)
  {
    var s := p + m + q;
    assert forall k :: 0 <= k < |m| ==> s[|p| + k] == m[k];
    if |q| > 0 {
      assert s[|p| + |m|] == q[0];
    }
  }

  /**
    `parse_duration` on a line made of a prefix without `D`, then
    `Duration:`, whitespace and an `HH:MM:SS.CC` clock, then a rest that does
    not start with a digit: the clock's value.
  */
  lemma ParseDurationInLine(p: string, m: string, q: string, j: nat)
    requires 'D' !in p
    requires TwoDigitClockAt(m, j) && j + 11 == |m|
    requires |DurationKey| <= j && m[..|DurationKey|] == DurationKey
    requires forall k :: |DurationKey| <= k < j ==> IsSpace(m[k])
    requires |q| == 0 || !IsDigit(q[0])
    ensures ParseDuration(p + m + q) == Some(Seconds(TwoDigitClock(m, j), 100))
  {
    var s := p + m + q;
    TwoDigitClockInLine(p, m, q, j);
    assert forall k :: 0 <= k < |m| ==> s[|p| + k] == m[k];
    assert s[|p|..|p| + |DurationKey|] == m[..|DurationKey|];
    assert forall k :: 0 <= k < |p| ==> s[k] == p[k];
    ParseDurationFirst(s, |p|, |p| + j);
  }

  /**
    `parse_time` on a line made of a prefix without `t`, then `time=` and an
    `HH:MM:SS.CC` clock, then a rest that does not start with a digit: the
    clock's value.
  */
  lemma ParseTimeInLine(p: string, m: string, q: string)
    requires 't' !in p
    requires TwoDigitClockAt(m, |TimeKey|) && |TimeKey| + 11 == |m|
    requires m[..|TimeKey|] == TimeKey
    requires |q| == 0 || !IsDigit(q[0])
    ensures ParseTime(p + m + q) == Some(Seconds(TwoDigitClock(m, |TimeKey|), 100))
  {
    var s := p + m + q;
    TwoDigitClockInLine(p, m, q, |TimeKey|);
    assert forall k :: 0 <= k < |m| ==> s[|p| + k] == m[k];
    assert s[|p|..|p| + |TimeKey|] == m[..|TimeKey|];
    assert forall k :: 0 <= k < |p| ==> s[k] == p[k];
    ParseTimeFirst(s, |p|);
  }

  /**
    The test's banner line "  Duration: 00:02:30.50, start: 0.000000" reads
    as 150.5 seconds. The line comes in as a parameter, written in three
    parts, so that the verifier works on the parts' characters rather than
    unfolding the search over a literal.
  */
  lemma DurationExample(s: string)
    requires s == "  " + "Duration: 00:02:30.50" + ", start: 0.000000"
    ensures ParseDuration(s) == Some(150.5)
  {
    var m := "Duration: 00:02:30.50";
    assert m[..9] == DurationKey && IsSpace(m[9]) && TwoDigitClockAt(m, 10)
           && TwoDigitClock(m, 10) == Clock(0, 2, 30, 50) by {
    }
    ParseDurationInLine("  ", m, ", start: 0.000000", 10);
  }

  /** The test's status line "frame=  100 fps= 30 time=00:01:15.50 bitrate=1000kbps" reads as 75.5 seconds. */
  lemma TimeExample(s: string)
    requires s == "frame=  100 fps= 30 " + "time=00:01:15.50" + " bitrate=1000kbps"
    ensures ParseTime(s) == Some(75.5)
  {
    var m := "time=00:01:15.50";
    assert m[..5] == TimeKey && TwoDigitClockAt(m, 5) && TwoDigitClock(m, 5) == Clock(0, 1, 15, 50) by {
    }
    ParseTimeInLine("frame=  100 fps= 30 ", m, " bitrate=1000kbps");
  }

  /** The test line "time=02:30:45.00" reads as 9045 seconds. */
  lemma TimeExampleHours(s: string)
    requires s == "time=02:30:45.00"
    ensures ParseTime(s) == Some(9045.0)
  {
    assert s[..5] == TimeKey && TwoDigitClockAt(s, 5) && TwoDigitClock(s, 5) == Clock(2, 30, 45, 0) by {
    }
    ParseTimeFirst(s, 0);
  }
}
