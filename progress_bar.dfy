/**
  The cell arithmetic both `display_progress_bar` functions share:
  `filled = int(width * percent / 100)`, then `full * filled + empty *
  (width - filled)`. Python's `int()` truncates toward zero and a string
  repeated a negative number of times is empty.
*/
module ProgressBar {
  import opened Text

  /** `int(x)` on a float: truncation toward zero. */
  function Trunc(x: real): (n: int)
    ensures x >= 0.0 ==> n as real <= x < n as real + 1.0
    ensures x < 0.0 ==> n as real - 1.0 < x <= n as real
  {
    if x >= 0.0 then x.Floor else -((-x).Floor)
  }

  lemma TruncMonotone(x: real, y: real)
    requires x <= y
    ensures Trunc(x) <= Trunc(y)
  {
  }

  /** Python's `min(a, b)`: b only when it is smaller than a. */
  function Min(a: real, b: real): real {
    if a <= b then a else b
  }

  /** The number of full cells. */
  function Filled(width: int, percent: real): int {
    Trunc(width as real * percent / 100.0)
  }

  /** The drawn bar: the full cells, then the empty ones. */
  function Bar(width: int, percent: real, full: char, empty: char): string {
    var f := Filled(width, percent);
    Repeat(full, f) + Repeat(empty, width - f)
  }

  /**
    For a percentage between 0 and 100 the bar is exactly width cells: the
    first Filled(width, percent) are full and the rest empty, and the full
    count is the largest whole number of cells not exceeding the share.
  */
  lemma BarShape(width: nat, percent: real, full: char, empty: char)
    requires 0.0 <= percent <= 100.0 && full != empty
    ensures var f := Filled(width, percent);
            && 0 <= f <= width
            && f as real * 100.0 <= width as real * percent < (f + 1) as real * 100.0
    ensures var b := Bar(width, percent, full, empty);
            && |b| == width
            && (forall i :: 0 <= i < |b| ==> (b[i] == full <==> i < Filled(width, percent)))
  {
    var x := width as real * percent / 100.0;
    var f := Filled(width, percent);
    assert 0.0 <= x <= width as real by {
      assert width as real * percent <= width as real * 100.0;
    }
    assert f as real <= x < f as real + 1.0;
    var b := Bar(width, percent, full, empty);
    forall i | 0 <= i < |b|
      ensures b[i] == full <==> i < f
    {
      if i < f {
        assert b[i] == Repeat(full, f)[i];
      } else {
        assert b[i] == Repeat(empty, width - f)[i - f];
      }
    }
  }

  /** A larger percentage never fills fewer cells. */
  lemma FilledMonotone(width: nat, p: real, q: real)
    requires p <= q
    ensures Filled(width, p) <= Filled(width, q)
  {
    assert width as real * p <= width as real * q;
    TruncMonotone(width as real * p / 100.0, width as real * q / 100.0);
  }

  /** 100% fills every cell and 0% none. */
  lemma FilledEnds(width: nat)
    ensures Filled(width, 100.0) == width && Filled(width, 0.0) == 0
  {
    assert width as real * 100.0 / 100.0 == width as real;
  }
}
