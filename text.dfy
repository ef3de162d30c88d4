/**
  Character and string helpers that the rest of the model shares: ASCII
  digits and decimal rendering, Python's whitespace set, ASCII case mapping,
  prefix tests, splitting and joining, and Python's code-point order on
  strings.
*/
module Text {

  predicate IsDigit(c: char) {
    '0' <= c <= '9'
  }

  /** The characters Python's `str.isspace()` and the regex class `\s` accept. */
  predicate IsSpace(c: char) {
    || ('\t' <= c <= '\r')
    || ('\U{1C}' <= c <= '\U{20}')
    || c == '\U{85}' || c == '\U{A0}' || c == '\U{1680}'
    || ('\U{2000}' <= c <= '\U{200A}')
    || c == '\U{2028}' || c == '\U{2029}' || c == '\U{202F}' || c == '\U{205F}' || c == '\U{3000}'
  }

  predicate AllDigits(s: string) {
    forall i :: 0 <= i < |s| ==> IsDigit(s[i])
  }

  function DigitValue(c: char): (d: nat)
    requires IsDigit(c)
    ensures d < 10
  {
    c as int - '0' as int
  }

  function DigitChar(d: nat): (c: char)
    requires d < 10
    ensures IsDigit(c) && DigitValue(c) == d
  {
    ('0' as int + d) as char
  }

  /** What Python's `int()` gives for a run of decimal digits. */
  function DigitsValue(s: string): nat
    requires AllDigits(s)
    decreases |s|
  {
    if |s| == 0 then 0 else 10 * DigitsValue(s[..|s| - 1]) + DigitValue(s[|s| - 1])
  }

  lemma DigitsValueSnoc(s: string, c: char)
    requires AllDigits(s) && IsDigit(c)
    ensures AllDigits(s + [c]) && DigitsValue(s + [c]) == 10 * DigitsValue(s) + DigitValue(c)
  {
    assert (s + [c])[..|s|] == s;
  }

  /** `str(n)`: the decimal digits of n, without leading zeros. */
  function NatToString(n: nat): (r: string)
    ensures |r| >= 1 && AllDigits(r)
    ensures DigitsValue(r) == n
    ensures r[0] == '0' ==> n == 0
    decreases n
  {
    if n < 10 then [DigitChar(n)]
    else
      var front := NatToString(n / 10);
      DigitsValueSnoc(front, DigitChar(n % 10));
      front + [DigitChar(n % 10)]
  }

  /** `f"{n:02d}"`: decimal digits, zero-padded on the left to width 2. */
  function Pad2(n: nat): (r: string)
    ensures AllDigits(r) && DigitsValue(r) == n
    ensures |r| >= 2 && (n < 100 <==> |r| == 2)
  {
    if n < 10 then
      DigitsValueSnoc(['0'], DigitChar(n));
      ['0', DigitChar(n)]
    else
      NatToStringLength(n);
      NatToString(n)
  }

  lemma {:induction false} NatToStringLength(n: nat)
    ensures n >= 10 ==> |NatToString(n)| >= 2
    ensures n >= 10 ==> (n < 100 <==> |NatToString(n)| == 2)
    decreases n
  {
    if n >= 10 {
      NatToStringLength(n / 10);
    }
  }

  function LowerChar(c: char): char {
    if 'A' <= c <= 'Z' then (c as int + 32) as char else c
  }

  function UpperChar(c: char): char {
    if 'a' <= c <= 'z' then (c as int - 32) as char else c
  }

  /** `str.lower()`, restricted to the ASCII letters. */
  function Lower(s: string): (r: string)
    ensures |r| == |s| && forall i :: 0 <= i < |s| ==> r[i] == LowerChar(s[i])
  {
    seq(|s|, i requires 0 <= i < |s| => LowerChar(s[i]))
  }

  /** `str.upper()`, restricted to the ASCII letters. */
  function Upper(s: string): (r: string)
    ensures |r| == |s| && forall i :: 0 <= i < |s| ==> r[i] == UpperChar(s[i])
  {
    seq(|s|, i requires 0 <= i < |s| => UpperChar(s[i]))
  }

  predicate StartsWith(s: string, prefix: string) {
    |prefix| <= |s| && s[..|prefix|] == prefix
  }

  /** `s.lstrip(c)`: drop every leading copy of c. */
  function LStrip(s: string, c: char): (r: string)
    ensures |r| <= |s| && r == s[|s| - |r|..]
    ensures r == [] || r[0] != c
    ensures forall i :: 0 <= i < |s| - |r| ==> s[i] == c
    decreases |s|
  {
    if |s| > 0 && s[0] == c then LStrip(s[1..], c) else s
  }

  /** `s.strip()`: drop leading and trailing whitespace. */
  function Strip(s: string): (r: string)
    ensures |r| <= |s|
    ensures r == [] || (!IsSpace(r[0]) && !IsSpace(r[|r| - 1]))
    decreases |s|
  {
    if |s| > 0 && IsSpace(s[0]) then Strip(s[1..])
    else if |s| > 0 && IsSpace(s[|s| - 1]) then Strip(s[..|s| - 1])
    else s
  }

  /** The first index of c in s, or -1 (`str.find`). */
  function IndexOf(s: string, c: char): (k: int)
    ensures -1 <= k < |s|
    ensures k >= 0 ==> s[k] == c
    ensures forall j :: 0 <= j < |s| && (k == -1 || j < k) ==> s[j] != c
  {
    IndexOfFrom(s, c, 0)
  }

  function IndexOfFrom(s: string, c: char, i: nat): (k: int)
    requires i <= |s|
    ensures k == -1 || i <= k < |s|
    ensures k >= 0 ==> s[k] == c
    ensures forall j :: i <= j < |s| && (k == -1 || j < k) ==> s[j] != c
    decreases |s| - i
  {
    if i == |s| then -1
    else if s[i] == c then i
    else IndexOfFrom(s, c, i + 1)
  }

  /** The last index of c in s, or -1 (`str.rfind`). */
  function LastIndexOf(s: string, c: char): (k: int)
    ensures -1 <= k < |s|
    ensures k >= 0 ==> s[k] == c
    ensures forall j :: k < j < |s| ==> s[j] != c
  {
    LastIndexBefore(s, c, |s|)
  }

  function LastIndexBefore(s: string, c: char, i: nat): (k: int)
    requires i <= |s|
    ensures -1 <= k < i
    ensures k >= 0 ==> s[k] == c
    ensures forall j :: k < j < i ==> s[j] != c
    decreases i
  {
    if i == 0 then -1
    else if s[i - 1] == c then i - 1
    else LastIndexBefore(s, c, i - 1)
  }

  /** `sep.join(parts)`. */
  function Join(parts: seq<string>, sep: string): string
    decreases |parts|
  {
    if |parts| == 0 then ""
    else if |parts| == 1 then parts[0]
    else parts[0] + sep + Join(parts[1..], sep)
  }

  /** `s.split(sep)` for a one-character separator. */
  function Split(s: string, sep: char): (parts: seq<string>)
    ensures |parts| >= 1
    decreases |s|
  {
    var k := IndexOf(s, sep);
    if k == -1 then [s] else [s[..k]] + Split(s[k + 1..], sep)
  }

  /** No piece of a split holds the separator. */
  lemma {:induction false} SplitPiecesFree(s: string, sep: char)
    ensures forall i :: 0 <= i < |Split(s, sep)| ==> sep !in Split(s, sep)[i]
    decreases |s|
  {
    var k := IndexOf(s, sep);
    if k != -1 {
      var rest := Split(s[k + 1..], sep);
      SplitPiecesFree(s[k + 1..], sep);
      assert sep !in s[..k];
      assert Split(s, sep) == [s[..k]] + rest;
      forall i | 1 <= i < |Split(s, sep)|
        ensures sep !in Split(s, sep)[i]
      {
        assert Split(s, sep)[i] == rest[i - 1];
      }
    }
  }

  /** The first piece of a split runs up to the first separator, or is the whole text when there is none. */
  lemma SplitFirst(s: string, sep: char)
    ensures var k := IndexOf(s, sep);
            Split(s, sep)[0] == (if k == -1 then s else s[..k])
  {
  }

  /** With the first separator at k, the split has a second piece: the first piece of what follows k. */
  lemma SplitAt(s: string, sep: char, k: nat)
    requires k < |s| && s[k] == sep
    requires forall j :: 0 <= j < k ==> s[j] != sep
    ensures |Split(s, sep)| >= 2 && Split(s, sep)[1] == Split(s[k + 1..], sep)[0]
  {
    assert IndexOf(s, sep) == k;
  }

  /** `strip()` keeps a prefix whose first and last characters are not whitespace. */
  lemma {:induction false} StripKeepsPrefix(s: string, prefix: string)
    requires |prefix| >= 1 && StartsWith(s, prefix)
    requires !IsSpace(prefix[0]) && !IsSpace(prefix[|prefix| - 1])
    ensures StartsWith(Strip(s), prefix)
    decreases |s|
  {
    assert s[0] == prefix[0];
    if IsSpace(s[|s| - 1]) {
      assert s[|prefix| - 1] == prefix[|prefix| - 1];
      var t := s[..|s| - 1];
      assert t[..|prefix|] == s[..|prefix|];
      StripKeepsPrefix(t, prefix);
    }
  }

  /** Joining the pieces of a split with the separator gives the text back. */
  lemma {:induction false} SplitJoin(s: string, sep: char)
    ensures Join(Split(s, sep), [sep]) == s
    decreases |s|
  {
    var k := IndexOf(s, sep);
    if k != -1 {
      var rest := Split(s[k + 1..], sep);
      JoinCons(s[..k], rest, [sep]);
      SplitJoin(s[k + 1..], sep);
      assert s == s[..k] + [sep] + s[k + 1..];
    }
  }

  lemma JoinCons(head: string, tail: seq<string>, sep: string)
    requires |tail| >= 1
    ensures Join([head] + tail, sep) == head + sep + Join(tail, sep)
  {
    assert ([head] + tail)[1..] == tail;
  }

  /** A concatenation splits back into its two parts. */
  lemma ConcatParts(a: string, b: string)
    ensures (a + b)[..|a|] == a && (a + b)[|a|..] == b
    ensures StartsWith(a + b, a)
  {
  }

  /** Two strings that become equal once the same text is appended were already equal. */
  lemma AppendCancel(a: string, b: string, t: string)
    requires a + t == b + t
    ensures a == b
  {
    assert |a| == |b|;
    assert a == (a + t)[..|a|] && b == (b + t)[..|b|];
  }

  /** `c * n`: n copies of c, and none when n is not positive. */
  function Repeat(c: char, n: int): (r: string)
    ensures |r| == (if n > 0 then n else 0)
    ensures forall i :: 0 <= i < |r| ==> r[i] == c
    decreases if n > 0 then n else 0
  {
    if n <= 0 then "" else [c] + Repeat(c, n - 1)
  }

  /** Python's `a < b` on strings: code-point lexicographic order. */
  predicate LexLess(a: string, b: string)
    decreases |a|
  {
    if |a| == 0 then |b| > 0
    else if |b| == 0 then false
    else if a[0] != b[0] then a[0] < b[0]
    else LexLess(a[1..], b[1..])
  }

  predicate LexLessEq(a: string, b: string) {
    a == b || LexLess(a, b)
  }

  lemma {:induction false} LexLessIrreflexive(a: string)
    ensures !LexLess(a, a)
    decreases |a|
  {
    if |a| > 0 {
      LexLessIrreflexive(a[1..]);
    }
  }

  lemma {:induction false} LexLessTransitive(a: string, b: string, c: string)
    requires LexLess(a, b) && LexLess(b, c)
    ensures LexLess(a, c)
    decreases |a|
  {
    if |a| > 0 && |b| > 0 && |c| > 0 && a[0] == b[0] && b[0] == c[0] {
      LexLessTransitive(a[1..], b[1..], c[1..]);
    }
  }

  lemma {:induction false} LexLessTotal(a: string, b: string)
    ensures a == b || LexLess(a, b) || LexLess(b, a)
    decreases |a|
  {
    if |a| > 0 && |b| > 0 && a[0] == b[0] {
      LexLessTotal(a[1..], b[1..]);
      if a[1..] == b[1..] {
        assert a == [a[0]] + a[1..] && b == [b[0]] + b[1..];
      }
    }
  }

  lemma LexLessAsymmetric(a: string, b: string)
    requires LexLess(a, b)
    ensures !LexLess(b, a)
  {
    if LexLess(b, a) {
      LexLessTransitive(a, b, a);
      LexLessIrreflexive(a);
    }
  }
}
