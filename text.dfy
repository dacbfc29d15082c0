/** Small string facts the bot relies on: concatenation of pieces, Python's
    `str.splitlines(keepends=True)`, and the decimal rendering of an integer
    that an f-string performs. */
module Text {

  /** Concatenation of a sequence of sequences. */
  function Flatten<T>(gs: seq<seq<T>>): seq<T>
  {
    if gs == [] then [] else gs[0] + Flatten(gs[1..])
  }

  /** Concatenation of a sequence of strings, as `"".join(ss)`. */
  function Concat(ss: seq<string>): string
  {
    Flatten(ss)
  }

  lemma ConcatSingleton(s: string)
    ensures Concat([s]) == s
  {
    assert Flatten([s]) == s + Flatten<char>([]);
  }

  lemma {:induction false} FlattenAppend<T>(a: seq<seq<T>>, b: seq<seq<T>>)
    ensures Flatten(a + b) == Flatten(a) + Flatten(b)
    decreases |a|
  {
    if a == [] {
      assert a + b == b;
    } else {
      assert (a + b)[1..] == a[1..] + b;
      FlattenAppend(a[1..], b);
    }
  }

  lemma FlattenSnoc<T>(a: seq<seq<T>>, g: seq<T>)
    ensures Flatten(a + [g]) == Flatten(a) + g
  {
    FlattenAppend(a, [g]);
    assert Flatten([g]) == g + Flatten<T>([]);
  }

  // ------------------------------------------------------------------
  // str.splitlines(keepends=True)
  // ------------------------------------------------------------------

  /** The code points Python's `str.splitlines` treats as line boundaries. */
  predicate IsLineBreak(c: char)
  {
    c == '\n' || c == '\r' || c == '\U{0B}' || c == '\U{0C}'
    || c == '\U{1C}' || c == '\U{1D}' || c == '\U{1E}'
    || c == '\U{85}' || c == '\U{2028}' || c == '\U{2029}'
  }

  /** The index of the first line break at or after `i`, or `|s|` if none. */
  function NextBreak(s: string, i: nat): (j: nat)
    requires i <= |s|
    ensures i <= j <= |s|
    ensures j < |s| ==> IsLineBreak(s[j])
    ensures forall k :: i <= k < j ==> !IsLineBreak(s[k])
    decreases |s| - i
  {
    if i == |s| || IsLineBreak(s[i]) then i else NextBreak(s, i + 1)
  }

  /** Length of the first line of `s`, its terminator included; `\r\n` is one terminator. */
  function FirstLineLength(s: string): (n: nat)
    requires s != ""
    ensures 0 < n <= |s|
  {
    var j := NextBreak(s, 0);
    if j == |s| then j
    else if s[j] == '\r' && j + 1 < |s| && s[j + 1] == '\n' then j + 2
    else j + 1
  }

  /** The lines of `s`, each keeping its terminator, as `s.splitlines(keepends=True)`. */
  function SplitLines(s: string): (lines: seq<string>)
    ensures Concat(lines) == s
    ensures forall i :: 0 <= i < |lines| ==> lines[i] != ""
    decreases |s|
  {
    if s == "" then []
    else
      var n := FirstLineLength(s);
      assert s[..n] + s[n..] == s;
      [s[..n]] + SplitLines(s[n..])
  }

  /** Length of the terminator a line ends with: 2 for `\r\n`, 1 for any other
      line break, 0 for a final line without one. */
  function TerminatorLength(line: string): (t: nat)
    ensures t <= |line|
  {
    if |line| >= 2 && line[|line| - 2] == '\r' && line[|line| - 1] == '\n' then 2
    else if |line| >= 1 && IsLineBreak(line[|line| - 1]) then 1
    else 0
  }

  /** A whole line: non-empty, and no line break occurs before its terminator. */
  predicate IsWholeLine(line: string)
  {
    line != "" &&
    forall k :: 0 <= k < |line| - TerminatorLength(line) ==> !IsLineBreak(line[k])
  }

  lemma FirstLineIsWholeLine(s: string)
    requires s != ""
    ensures IsWholeLine(s[..FirstLineLength(s)])
    ensures FirstLineLength(s) < |s| ==> TerminatorLength(s[..FirstLineLength(s)]) > 0
    ensures FirstLineLength(s) < |s| && s[FirstLineLength(s) - 1] == '\r' ==> s[FirstLineLength(s)] != '\n'
  {
  }

  /** Every line `SplitLines` returns is a whole line, and every line but the
      last ends with its terminator. */
  lemma {:induction false} SplitLinesAreWholeLines(s: string)
    ensures forall i :: 0 <= i < |SplitLines(s)| ==> IsWholeLine(SplitLines(s)[i])
    ensures forall i :: 0 <= i < |SplitLines(s)| - 1 ==> TerminatorLength(SplitLines(s)[i]) > 0
    decreases |s|
  {
    if s != "" {
      var n := FirstLineLength(s);
      FirstLineIsWholeLine(s);
      SplitLinesAreWholeLines(s[n..]);
      var lines := SplitLines(s);
      assert lines == [s[..n]] + SplitLines(s[n..]);
      forall i | 0 <= i < |lines|
        ensures IsWholeLine(lines[i])
        ensures i < |lines| - 1 ==> TerminatorLength(lines[i]) > 0
      {
        if i > 0 {
          assert lines[i] == SplitLines(s[n..])[i - 1];
        } else if i < |lines| - 1 {
          assert n < |s|;
        }
      }
    }
  }

  /** A `\r\n` is one terminator: no line ends with `\r` while the next one
      starts with `\n`. */
  lemma {:induction false} SplitLinesKeepCrLf(s: string)
    ensures forall i :: 0 <= i < |SplitLines(s)| - 1 ==>
              !(SplitLines(s)[i][|SplitLines(s)[i]| - 1] == '\r' && SplitLines(s)[i + 1][0] == '\n')
    decreases |s|
  {
    if s != "" {
      var n := FirstLineLength(s);
      SplitLinesKeepCrLf(s[n..]);
      var lines := SplitLines(s);
      var rest := SplitLines(s[n..]);
      assert lines == [s[..n]] + rest;
      forall i | 0 <= i < |lines| - 1
        ensures !(lines[i][|lines[i]| - 1] == '\r' && lines[i + 1][0] == '\n')
      {
        if i > 0 {
          assert lines[i] == rest[i - 1] && lines[i + 1] == rest[i];
        } else {
          FirstLineIsWholeLine(s);
          assert lines[1] == rest[0] == s[n..][..FirstLineLength(s[n..])];
        }
      }
    }
  }

  // ------------------------------------------------------------------
  // Decimal rendering of a non-negative integer, as `f"{n}"`
  // ------------------------------------------------------------------

  predicate IsDigit(c: char)
  {
    '0' <= c <= '9'
  }

  predicate AllDigits(s: string)
  {
    forall i :: 0 <= i < |s| ==> IsDigit(s[i])
  }

  function DigitChar(d: nat): (c: char)
    requires d < 10
    ensures IsDigit(c) && c as int - '0' as int == d
  {
    ('0' as int + d) as char
  }

  /** The decimal digits of `n`, most significant first, without leading zeros. */
  function NatToDecimal(n: nat): (s: string)
    ensures s != "" && AllDigits(s)
    ensures |s| > 1 ==> s[0] != '0'
    decreases n
  {
    if n < 10 then [DigitChar(n)] else NatToDecimal(n / 10) + [DigitChar(n % 10)]
  }

  /** The number a string of decimal digits denotes. */
  function DecimalValue(s: string): nat
    requires AllDigits(s)
  {
    if s == "" then 0
    else DecimalValue(s[..|s| - 1]) * 10 + (s[|s| - 1] as int - '0' as int)
  }

  /** Reading back the decimal rendering gives the number. */
  lemma {:induction false} DecimalRoundTrip(n: nat)
    ensures DecimalValue(NatToDecimal(n)) == n
    decreases n
  {
    if n >= 10 {
      var s := NatToDecimal(n);
      assert s[..|s| - 1] == NatToDecimal(n / 10);
      DecimalRoundTrip(n / 10);
    }
  }

  /** Distinct numbers have distinct renderings. */
  lemma DecimalInjective(m: nat, n: nat)
    requires NatToDecimal(m) == NatToDecimal(n)
    ensures m == n
  {
    DecimalRoundTrip(m);
    DecimalRoundTrip(n);
  }
}
