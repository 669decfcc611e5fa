/**
 * Text helpers the invoice screens rely on: the decimal rendering of an
 * integer (JavaScript's `String(n)`, and `toFixed(0)` on an integer),
 * `padStart`, `Array.prototype.join`, and reading a message back as the
 * lines a messaging app would show (splitting on '\n').
 */
module Strings {

  predicate IsDigit(c: char) {
    '0' <= c <= '9'
  }

  predicate AllDigits(s: string) {
    forall i :: 0 <= i < |s| ==> IsDigit(s[i])
  }

  function DigitValue(c: char): (d: nat)
    requires IsDigit(c)
    ensures d < 10
  {
    c as int - '0' as int
  }

  function DigitChar(d: nat): char
    requires d < 10
  {
    ('0' as int + d) as char
  }

  /** The number a string of decimal digits denotes (leading zeros allowed). */
  function Value(s: string): nat
    requires AllDigits(s)
  {
    if s == [] then 0 else Value(s[..|s| - 1]) * 10 + DigitValue(s[|s| - 1])
  }

  /** Decimal digits of `n`, most significant first, without leading zeros. */
  function NatToString(n: nat): string {
    if n < 10 then [DigitChar(n)] else NatToString(n / 10) + [DigitChar(n % 10)]
  }

  /**
   * The decimal text of `n` is a non-empty digit string with no leading
   * zero, a single digit exactly when `n` < 10, and it reads back as `n`.
   */
  lemma {:induction false} NatToStringValue(n: nat)
    ensures var s := NatToString(n);
      |s| >= 1 && AllDigits(s) && (|s| > 1 ==> s[0] != '0') && (n < 10 <==> |s| == 1) &&
      Value(s) == n
  {
    if n >= 10 {
      var s := NatToString(n);
      NatToStringValue(n / 10);
      assert s[..|s| - 1] == NatToString(n / 10);
    }
  }

  /** JavaScript's `String(i)` for an integer `i`. */
  function IntToString(i: int): string {
    if i < 0 then "-" + NatToString(-i) else NatToString(i)
  }

  /** `String(i)` is the digits of `i`, after a '-' when `i` is negative. */
  lemma IntToStringValue(i: int)
    ensures i >= 0 ==> AllDigits(IntToString(i)) && Value(IntToString(i)) == i
    ensures i < 0 ==> var s := IntToString(i);
      |s| >= 2 && s[0] == '-' && AllDigits(s[1..]) && Value(s[1..]) == -i
  {
    NatToStringValue(if i < 0 then -i else i);
    if i < 0 {
      assert IntToString(i)[1..] == NatToString(-i);
    }
  }

  /** `s.padStart(width, fill)` for a one-character `fill`. */
  function PadStart(s: string, width: nat, fill: char): string
    decreases width - |s|
  {
    if |s| >= width then s else PadStart([fill] + s, width, fill)
  }

  /**
   * `padStart` yields max(|s|, width) characters: `fill` in front, then `s`.
   */
  lemma {:induction false} PadStartSpec(s: string, width: nat, fill: char)
    ensures var r := PadStart(s, width, fill);
      |r| == (if |s| >= width then |s| else width) &&
      r[|r| - |s|..] == s &&
      forall i :: 0 <= i < |r| - |s| ==> r[i] == fill
    decreases width - |s|
  {
    if |s| < width {
      PadStartSpec([fill] + s, width, fill);
      var r := PadStart(s, width, fill);
      assert r[|r| - |s|..] == ([fill] + s)[1..];
    }
  }

  /** A leading zero does not change the number a digit string denotes. */
  lemma {:induction false} LeadingZeroValue(s: string)
    requires AllDigits(s)
    ensures AllDigits("0" + s) && Value("0" + s) == Value(s)
  {
    if s != [] {
      var t := "0" + s;
      assert t[..|t| - 1] == "0" + s[..|s| - 1];
      LeadingZeroValue(s[..|s| - 1]);
    }
  }

  /** Padding a digit string with '0' keeps it a digit string of the same value. */
  lemma {:induction false} PadWithZerosValue(s: string, width: nat)
    requires AllDigits(s)
    ensures AllDigits(PadStart(s, width, '0'))
    ensures Value(PadStart(s, width, '0')) == Value(s)
    decreases width - |s|
  {
    if |s| < width {
      LeadingZeroValue(s);
      PadWithZerosValue("0" + s, width);
    }
  }

  /** `lines.join(sep)`. */
  function Join(lines: seq<string>, sep: string): string {
    if lines == [] then ""
    else if |lines| == 1 then lines[0]
    else lines[0] + sep + Join(lines[1..], sep)
  }

  predicate NoNewline(s: string) {
    forall i :: 0 <= i < |s| ==> s[i] != '\n'
  }

  /** The lines of `s`, the first of which continues the partial line `current`. */
  function LinesFrom(current: string, s: string): (ls: seq<string>)
    ensures |ls| >= 1
    decreases |s|
  {
    if s == [] then [current]
    else if s[0] == '\n' then [current] + LinesFrom("", s[1..])
    else LinesFrom(current + [s[0]], s[1..])
  }

  /** `s.split("\n")`: the lines a reader of the text sees. */
  function Lines(s: string): (ls: seq<string>)
    ensures |ls| >= 1
  {
    LinesFrom("", s)
  }

  /** Newline-free text only extends the current line. */
  lemma {:induction false} LinesFromLine(current: string, s: string)
    requires NoNewline(s)
    ensures LinesFrom(current, s) == [current + s]
    decreases |s|
  {
    if s != [] {
      LinesFromLine(current + [s[0]], s[1..]);
      assert current + [s[0]] + s[1..] == current + s;
    } else {
      assert current + s == current;
    }
  }

  /** A newline closes the current line; what follows it starts afresh. */
  lemma {:induction false} LinesFromSplit(current: string, a: string, b: string)
    ensures LinesFrom(current, a + "\n" + b) == LinesFrom(current, a) + LinesFrom("", b)
    decreases |a|
  {
    var whole := a + "\n" + b;
    if a == [] {
      assert whole[0] == '\n' && whole[1..] == b;
    } else {
      assert whole[0] == a[0] && whole[1..] == a[1..] + "\n" + b;
      if a[0] == '\n' {
        LinesFromSplit("", a[1..], b);
      } else {
        LinesFromSplit(current + [a[0]], a[1..], b);
      }
    }
  }

  lemma LinesOfLine(s: string)
    requires NoNewline(s)
    ensures Lines(s) == [s]
  {
    LinesFromLine("", s);
    assert "" + s == s;
  }

  /** A newline separates the lines of what precedes it from those of what follows. */
  lemma LinesSplitAtNewline(a: string, b: string)
    ensures Lines(a + "\n" + b) == Lines(a) + Lines(b)
  {
    LinesFromSplit("", a, b);
  }

  /** Joining newline-free lines with "\n" and splitting again gives the lines back. */
  lemma {:induction false} LinesOfJoin(ls: seq<string>)
    requires |ls| >= 1
    requires forall i :: 0 <= i < |ls| ==> NoNewline(ls[i])
    ensures Lines(Join(ls, "\n")) == ls
  {
    LinesOfLine(ls[0]);
    if |ls| > 1 {
      LinesOfJoin(ls[1..]);
      LinesSplitAtNewline(ls[0], Join(ls[1..], "\n"));
      assert [ls[0]] + ls[1..] == ls;
    }
  }
}
