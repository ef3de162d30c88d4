/**
  What the newer executor shows while a conversion runs. `format_time`
  renders a number of seconds as MM:SS or HH:MM:SS; each poll of the running
  process either draws the progress bar, with the share of the duration done
  and an estimate of the time left, or, while no progress is known, a
  spinner with the time elapsed. Seconds are exact reals here.
*/
module MonicaDisplay {
  import opened Wrappers
  import opened Text
  import opened ProgressBar

  // format_time

  /** Negative times count as 0. */
  function Clamp(seconds: real): (s: real)
    ensures s >= 0.0 && (seconds >= 0.0 ==> s == seconds)
  {
    if seconds < 0.0 then 0.0 else seconds
  }

  /** The whole seconds of the clamped time. */
  function WholeSeconds(seconds: real): nat {
    Clamp(seconds).Floor
  }

  /** Python's `x % d` on floats, for a positive d: never negative. */
  function FloatMod(x: real, d: real): real
    requires d > 0.0
  {
    x - d * (x / d).Floor as real
  }

  datatype Fields = Fields(hours: nat, minutes: nat, secs: nat)

  /**
    `int(seconds // 3600)`, `int((seconds % 3600) // 60)` and
    `int(seconds % 60)`; the first two floor divisions already give whole
    numbers, and `int()` truncates the last.
  */
  function TimeFields(seconds: real): Fields {
    var s := Clamp(seconds);
    HourFloor(s);
    MinuteFloor(s);
    Mod60(s);
    Fields((s / 3600.0).Floor, (FloatMod(s, 3600.0) / 60.0).Floor, Trunc(FloatMod(s, 60.0)))
  }

  /** `format_time`: HH:MM:SS when there is at least an hour, MM:SS otherwise, each field at least two digits. */
  function FormatTime(seconds: real): string {
    var f := TimeFields(seconds);
    if f.hours > 0 then Pad2(f.hours) + ":" + Pad2(f.minutes) + ":" + Pad2(f.secs)
    else Pad2(f.minutes) + ":" + Pad2(f.secs)
  }

  /** For a non-negative x, `x // 3600` is the whole seconds of x divided by 3600. */
  lemma Div3600(x: real)
    requires x >= 0.0
    ensures (x / 3600.0).Floor == x.Floor / 3600
  {
    var t := x.Floor;
    var q := t / 3600;
    assert t == 3600 * q + t % 3600;
    assert q as real <= x / 3600.0 < (q + 1) as real;
  }

  lemma Div60(x: real)
    requires x >= 0.0
    ensures (x / 60.0).Floor == x.Floor / 60
  {
    var t := x.Floor;
    var q := t / 60;
    assert t == 60 * q + t % 60;
    assert q as real <= x / 60.0 < (q + 1) as real;
  }

  lemma Mod3600(x: real)
    requires x >= 0.0
    ensures FloatMod(x, 3600.0) >= 0.0 && FloatMod(x, 3600.0).Floor == x.Floor % 3600
  {
    Div3600(x);
    var q := x.Floor / 3600;
    assert FloatMod(x, 3600.0) == x - (3600 * q) as real;
  }

  lemma Mod60(x: real)
    requires x >= 0.0
    ensures FloatMod(x, 60.0) >= 0.0 && FloatMod(x, 60.0).Floor == x.Floor % 60
  {
    Div60(x);
    var q := x.Floor / 60;
    assert FloatMod(x, 60.0) == x - (60 * q) as real;
  }

  lemma HourFloor(s: real)
    requires s >= 0.0
    ensures (s / 3600.0).Floor >= 0
  {
    Div3600(s);
  }

  lemma MinuteFloor(s: real)
    requires s >= 0.0
    ensures FloatMod(s, 3600.0) >= 0.0 && (FloatMod(s, 3600.0) / 60.0).Floor == (s.Floor % 3600) / 60
  {
    Mod3600(s);
    Div60(FloatMod(s, 3600.0));
  }

  /** The fields are the hours, minutes and seconds of the whole seconds: minutes and seconds below 60. */
  lemma TimeFieldsWhole(seconds: real)
    ensures var f := TimeFields(seconds);
            var t := WholeSeconds(seconds);
            && f.hours == t / 3600 && f.minutes == (t % 3600) / 60 && f.secs == t % 60
            && f.minutes < 60 && f.secs < 60
            && f.hours * 3600 + f.minutes * 60 + f.secs == t
  {
    var s := Clamp(seconds);
    Div3600(s);
    MinuteFloor(s);
    Mod60(s);
    Decompose(s.Floor);
  }

  lemma Decompose(t: nat)
    ensures (t % 3600) / 60 < 60 && t % 60 < 60
    ensures (t / 3600) * 3600 + ((t % 3600) / 60) * 60 + t % 60 == t
  {
    assert t == 3600 * (t / 3600) + t % 3600;
    assert t % 3600 == 60 * ((t % 3600) / 60) + (t % 3600) % 60;
    assert (t % 3600) % 60 == t % 60;
  }

  /**
    Reading the rendered text back gives the whole seconds again: below an
    hour it is exactly MM:SS, otherwise HH:MM:SS with at least two hour
    digits, minutes and seconds always below 60.
  */
  lemma FormatTimeReadsBack(seconds: real)
    ensures var t := WholeSeconds(seconds);
            var r := FormatTime(seconds);
            t < 3600 ==>
              && |r| == 5 && r[2] == ':' && AllDigits(r[..2]) && AllDigits(r[3..])
              && DigitsValue(r[..2]) < 60 && DigitsValue(r[3..]) < 60
              && DigitsValue(r[..2]) * 60 + DigitsValue(r[3..]) == t
    ensures var t := WholeSeconds(seconds);
            var r := FormatTime(seconds);
            t >= 3600 ==>
              && |r| >= 8 && r[|r| - 6] == ':' && r[|r| - 3] == ':'
              && AllDigits(r[..|r| - 6]) && AllDigits(r[|r| - 5..|r| - 3]) && AllDigits(r[|r| - 2..])
              && DigitsValue(r[|r| - 5..|r| - 3]) < 60 && DigitsValue(r[|r| - 2..]) < 60
              && DigitsValue(r[..|r| - 6]) * 3600 + DigitsValue(r[|r| - 5..|r| - 3]) * 60 + DigitsValue(r[|r| - 2..]) == t
  {
    TimeFieldsWhole(seconds);
    var f := TimeFields(seconds);
    var r := FormatTime(seconds);
    var m := Pad2(f.minutes);
    var sec := Pad2(f.secs);
    if f.hours > 0 {
      var h := Pad2(f.hours);
      assert r == h + ":" + m + ":" + sec;
      assert r[..|r| - 6] == h && r[|r| - 5..|r| - 3] == m && r[|r| - 2..] == sec;
    } else {
      assert r == m + ":" + sec;
      assert r[..2] == m && r[3..] == sec;
    }
  }

  /** Two renderings the source's own examples fix: an hour, two minutes and five seconds, and a negative time. */
  lemma FormatTimeExamples()
    ensures FormatTime(3725.0) == "01:02:05"
    ensures FormatTime(-10.0) == "00:00"
  {
    TimeFieldsWhole(3725.0);
    TimeFieldsWhole(-10.0);
    assert Pad2(1) == "01" && Pad2(2) == "02" && Pad2(5) == "05" && Pad2(0) == "00";
  }

  // The poll loop's frame

  /** One redraw of the poll loop: the bar with its numbers, or the spinner. */
  datatype Frame = Determinate(percent: real, elapsed: real, eta: real) | Spinner(elapsed: real)

  /**
    One pass of the poll loop, given the probed duration, the time read from
    the output and the seconds elapsed: with a positive duration and a
    positive time the share done, capped at 99.9, and the ETA
    `elapsed / percent * (100 - percent)`; otherwise the spinner.
  */
  function PollFrame(duration: Option<real>, current: real, elapsed: real): Frame {
    if duration.Some? && duration.value != 0.0 && duration.value > 0.0 && current > 0.0 then
      var percent := Min(99.9, (current / duration.value) * 100.0);
      var eta := if percent > 0.0 then (elapsed / percent) * (100.0 - percent) else 0.0;
      Determinate(percent, elapsed, eta)
    else Spinner(elapsed)
  }

  /**
    The bar is drawn exactly when the duration is known and positive and
    some progress was read; its share then lies in (0, 99.9], equals the
    time over the duration as a percentage unless capped, and the ETA is the
    rest of the run at the rate so far, never negative.
  */
  lemma PollFrameSpec(duration: Option<real>, current: real, elapsed: real)
    ensures PollFrame(duration, current, elapsed).Determinate? <==>
              duration.Some? && duration.value > 0.0 && current > 0.0
    ensures PollFrame(duration, current, elapsed).elapsed == elapsed
    ensures var f := PollFrame(duration, current, elapsed);
            f.Determinate? ==>
              && 0.0 < f.percent <= 99.9
              && (f.percent < 99.9 ==> f.percent * duration.value == current * 100.0)
              && (current * 100.0 >= 99.9 * duration.value ==> f.percent == 99.9)
              && f.eta * f.percent == elapsed * (100.0 - f.percent)
              && (elapsed >= 0.0 ==> f.eta >= 0.0)
  {
    var f := PollFrame(duration, current, elapsed);
    if f.Determinate? {
      var d := duration.value;
      var ratio := (current / d) * 100.0;
      assert ratio * d == current * 100.0;
      assert ratio > 0.0;
      var p := f.percent;
      assert (elapsed / p) * p == elapsed;
      assert f.eta * p == (elapsed / p) * p * (100.0 - p);
      if elapsed >= 0.0 {
        assert elapsed / p >= 0.0;
      }
      if current * 100.0 >= 99.9 * d {
        DivAtLeast(current, d, 0.999);
      }
    }
  }

  lemma DivAtLeast(a: real, d: real, c: real)
    requires d > 0.0 && a >= c * d
    ensures a / d >= c
  {
    var e := a - c * d;
    assert a / d == c + e / d;
    assert e / d >= 0.0;
  }

  // display_progress_bar

  const BarWidth := 30
  const FullCell := '█'
  const EmptyCell := '░'
  /** The spinner's ten braille frames. */
  const SpinnerFrames: seq<char> := ['⠋', '⠙', '⠹', '⠸', '⠼', '⠴', '⠦', '⠧', '⠇', '⠏']

  /** What one call of `display_progress_bar` draws, before colour and number formatting. */
  datatype BarLine = BarLine(bar: string, percent: real, elapsedText: string, etaText: Option<string>)

  /** `display_progress_bar(percent, elapsed, eta)`: the ETA is shown only when positive and the run is not at 100%. */
  function DisplayProgressBar(percent: real, elapsed: real, eta: real): (l: BarLine)
    ensures l.etaText.Some? <==> eta > 0.0 && percent < 100.0
  {
    BarLine(Bar(BarWidth, percent, FullCell, EmptyCell), percent, FormatTime(elapsed),
            if eta > 0.0 && percent < 100.0 then Some(FormatTime(eta)) else None)
  }

  /** The spinner frame for the elapsed time: `SPINNER_FRAMES[int(elapsed * 10) % 10]`. */
  function SpinnerFrame(elapsed: real): (c: char)
    ensures c in SpinnerFrames
  {
    SpinnerFrames[Trunc(elapsed * 10.0) % |SpinnerFrames|]
  }

  /**
    A bar drawn while polling has all 30 cells and is never full, and it
    shows an ETA exactly when some time is estimated to remain.
  */
  lemma PollBarNeverFull(duration: Option<real>, current: real, elapsed: real)
    requires PollFrame(duration, current, elapsed).Determinate?
    ensures var f := PollFrame(duration, current, elapsed);
            var l := DisplayProgressBar(f.percent, f.elapsed, f.eta);
            && |l.bar| == BarWidth && l.bar[BarWidth - 1] == EmptyCell
            && (l.etaText.Some? <==> f.eta > 0.0)
  {
    PollFrameSpec(duration, current, elapsed);
    var f := PollFrame(duration, current, elapsed);
    BarShape(BarWidth, f.percent, FullCell, EmptyCell);
    assert Filled(BarWidth, f.percent) < BarWidth;
  }

  /** The bar drawn when the conversion succeeds is full and shows no ETA. */
  lemma FinalBarFull(elapsed: real)
    ensures var l := DisplayProgressBar(100.0, elapsed, 0.0);
            && |l.bar| == BarWidth && (forall i :: 0 <= i < BarWidth ==> l.bar[i] == FullCell)
            && l.etaText == None
  {
    BarShape(BarWidth, 100.0, FullCell, EmptyCell);
    FilledEnds(BarWidth);
  }
}
