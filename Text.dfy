/** The pieces of the .NET string library that the cmdlet relies on:
    decimal rendering of integers, PadRight, IsNullOrWhiteSpace,
    ordinal case-insensitive comparison, and the line structure that
    StreamWriter.WriteLine produces. */
module Text {
  import opened Wrappers

  /** Line terminator appended by WriteLine (Environment.NewLine on Unix hosts). */
  const NewLine: string := "\n"

  predicate IsDigit(c: char) { '0' <= c <= '9' }

  predicate AllDigits(s: string) { forall i :: 0 <= i < |s| ==> IsDigit(s[i]) }

  predicate NoNewLine(s: string) { forall i :: 0 <= i < |s| ==> s[i] != '\n' }

  function DigitChar(d: nat): (c: char)
    requires d < 10
    ensures IsDigit(c) && c as int - '0' as int == d
  {
    (d + '0' as int) as char
  }

  /** Value of a string of decimal digits. */
  function DigitsValue(s: string): nat
    requires AllDigits(s)
  {
    if s == [] then 0 else DigitsValue(s[..|s| - 1]) * 10 + (s[|s| - 1] as int - '0' as int)
  }

  /** Decimal text of a natural number, as Int32.ToString() renders it: digits only,
      never empty, and no leading zero unless the number is zero. */
  function NatText(n: nat): (r: string)
    ensures 1 <= |r| && AllDigits(r)
    ensures r[0] == '0' ==> n == 0
    ensures n == 0 ==> r == "0"
    decreases n
  {
    if n < 10 then [DigitChar(n)] else NatText(n / 10) + [DigitChar(n % 10)]
  }

  lemma {:induction false} NatTextValue(n: nat)
    ensures DigitsValue(NatText(n)) == n
    decreases n
  {
    if n >= 10 {
      NatTextValue(n / 10);
      var s := NatText(n);
      assert s[..|s| - 1] == NatText(n / 10);
    }
  }

  /** Reads back a decimal integer with an optional leading minus sign. */
  function ParseInt(s: string): Option<int>
  {
    if |s| >= 2 && s[0] == '-' && AllDigits(s[1..]) then Some(-(DigitsValue(s[1..]) as int))
    else if |s| >= 1 && AllDigits(s) then Some(DigitsValue(s))
    else None
  }

  /** Decimal text of an integer (invariant culture: a leading '-' for negatives).
      It is made of digits and at most a leading '-', it reads back as `n`, and it
      is the shortest such text: no leading zero and no "-0". */
  function IntText(n: int): (r: string)
    ensures |r| >= 1
    ensures forall i :: 0 <= i < |r| ==> IsDigit(r[i]) || (i == 0 && r[i] == '-')
    ensures ParseInt(r) == Some(n)
    ensures r[0] == '0' ==> r == "0"
    ensures r[0] == '-' ==> |r| >= 2 && r[1] != '0'
  {
    if n < 0 then
      NatTextValue(-n);
      var r := "-" + NatText(-n);
      assert r[1..] == NatText(-n);
      r
    else
      NatTextValue(n);
      NatText(n)
  }

  function Spaces(n: nat): (r: string)
    ensures |r| == n && forall i :: 0 <= i < n ==> r[i] == ' '
  {
    seq(n, _ => ' ')
  }

  lemma NoNewLineAppend(a: string, b: string)
    requires NoNewLine(a) && NoNewLine(b)
    ensures NoNewLine(a + b)
  {
    assert forall i :: 0 <= i < |a + b| ==> (a + b)[i] == if i < |a| then a[i] else b[i - |a|];
  }

  /** String.PadRight: appends spaces up to `totalWidth`; a longer string is kept whole. */
  function PadRight(s: string, totalWidth: nat): (r: string)
    ensures |r| == if |s| < totalWidth then totalWidth else |s|
    ensures r[..|s|] == s
    ensures forall i :: |s| <= i < |r| ==> r[i] == ' '
  {
    if |s| < totalWidth then s + Spaces(totalWidth - |s|) else s
  }

  lemma NoNewLinePadRight(s: string, totalWidth: nat)
    requires NoNewLine(s)
    ensures NoNewLine(PadRight(s, totalWidth))
  {
    var r := PadRight(s, totalWidth);
    assert forall i :: 0 <= i < |s| ==> r[i] == r[..|s|][i];
  }

  /** Char.IsWhiteSpace: the Unicode space, line and paragraph separators,
      U+0009 to U+000D, U+0085 and U+00A0. */
  predicate IsWhiteSpace(c: char)
  {
    || c == ' ' || '\t' <= c <= '\r' || c == '\U{0085}' || c == '\U{00A0}'
    || c == '\U{1680}' || '\U{2000}' <= c <= '\U{200A}' || c == '\U{2028}'
    || c == '\U{2029}' || c == '\U{202F}' || c == '\U{205F}' || c == '\U{3000}'
  }

  /** String.IsNullOrWhiteSpace, with null as None. */
  predicate IsNullOrWhiteSpace(s: Option<string>)
  {
    s.None? || forall i :: 0 <= i < |s.value| ==> IsWhiteSpace(s.value[i])
  }

  function ToUpperAscii(c: char): char
  {
    if 'a' <= c <= 'z' then (c as int - 32) as char else c
  }

  /** StringComparison.OrdinalIgnoreCase, restricted to ASCII case folding. */
  predicate EqualsOrdinalIgnoreCase(a: string, b: string)
  {
    |a| == |b| && forall i :: 0 <= i < |a| ==> ToUpperAscii(a[i]) == ToUpperAscii(b[i])
  }

  /** The lines of `s`: the pieces between newlines. Text ending in a newline
      has an empty last line. */
  function SplitLines(s: string): (r: seq<string>)
    ensures |r| >= 1
  {
    if s == [] then [""]
    else
      var rest := SplitLines(s[1..]);
      if s[0] == '\n' then [""] + rest else [[s[0]] + rest[0]] + rest[1..]
  }

  /** Joins lines with newlines: the inverse of SplitLines. */
  function JoinLines(lines: seq<string>): string
    requires |lines| >= 1
  {
    if |lines| == 1 then lines[0] else lines[0] + NewLine + JoinLines(lines[1..])
  }

  lemma {:induction false} SplitLinesAfter(a: string, b: string)
    requires NoNewLine(a)
    ensures SplitLines(a + NewLine + b) == [a] + SplitLines(b)
  {
    if a == [] {
      assert a + NewLine + b == ['\n'] + b;
      assert (['\n'] + b)[1..] == b;
    } else {
      var s := a + NewLine + b;
      assert s[1..] == a[1..] + NewLine + b;
      SplitLinesAfter(a[1..], b);
      assert [a[0]] + a[1..] == a;
    }
  }

  /** Splitting is lossless: joining the lines gives back the text. */
  lemma {:induction false} SplitJoinRoundTrip(s: string)
    ensures JoinLines(SplitLines(s)) == s
  {
    if s != [] {
      SplitJoinRoundTrip(s[1..]);
      var rest := SplitLines(s[1..]);
      if s[0] == '\n' {
        assert ([""] + rest)[1..] == rest;
        assert s == [s[0]] + s[1..];
      } else {
        var r := [[s[0]] + rest[0]] + rest[1..];
        if |rest| == 1 {
          assert s == [s[0]] + s[1..];
        } else {
          assert r[1..] == rest[1..];
          assert JoinLines(rest) == rest[0] + NewLine + JoinLines(rest[1..]);
          assert s == [s[0]] + s[1..];
        }
      }
    }
  }
}
