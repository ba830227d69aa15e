/**
 * Decimal digits and the text forms of numbers that appear in issue
 * references, correlation tags and notification lines.
 */
module Text {

  predicate IsDigit(c: char) {
    '0' <= c <= '9'
  }

  predicate AllDigits(s: string) {
    forall i :: 0 <= i < |s| ==> IsDigit(s[i])
  }

  function DigitChar(d: nat): (c: char)
    requires d < 10
    ensures IsDigit(c)
  {
    ('0' as int + d) as char
  }

  function DigitValue(c: char): (d: nat)
    requires IsDigit(c)
    ensures d < 10
  {
    c as int - '0' as int
  }

  /** The decimal form of `n` without leading zeros, as Python's `str(n)` writes it. */
  function NatToString(n: nat): (s: string)
    ensures |s| >= 1 && AllDigits(s)
    ensures s[0] == '0' ==> n == 0
    decreases n
  {
    if n < 10 then [DigitChar(n)] else NatToString(n / 10) + [DigitChar(n % 10)]
  }

  /** The decimal form of an integer, with a leading '-' for negatives. */
  function IntToString(i: int): string {
    if i < 0 then "-" + NatToString(-i) else NatToString(i)
  }

  /** The value of a string of decimal digits. */
  function ParseNat(s: string): nat
    requires AllDigits(s)
    decreases |s|
  {
    if s == [] then 0 else ParseNat(s[..|s| - 1]) * 10 + DigitValue(s[|s| - 1])
  }

  /** Reading back the decimal form of a number gives the number. */
  lemma {:induction false} ParseNatToString(n: nat)
    ensures ParseNat(NatToString(n)) == n
    decreases n
  {
    if n >= 10 {
      var s := NatToString(n);
      assert s[..|s| - 1] == NatToString(n / 10);
      ParseNatToString(n / 10);
    }
  }

  /** The longest prefix of `s` made of digits (what a greedy `[0-9]+` consumes). */
  function DigitRun(s: string): (r: string)
    ensures r <= s && AllDigits(r)
    ensures |r| < |s| ==> !IsDigit(s[|r|])
    decreases |s|
  {
    if s == [] || !IsDigit(s[0]) then [] else [s[0]] + DigitRun(s[1..])
  }

  /** A string of digits is its own digit run. */
  lemma {:induction false} DigitRunAllDigits(x: string)
    requires AllDigits(x)
    ensures DigitRun(x) == x
    decreases |x|
  {
    if x != [] {
      DigitRunAllDigits(x[1..]);
    }
  }

  /** A digit run stops at the first non-digit, so what follows it does not matter. */
  lemma {:induction false} DigitRunAppend(x: string, y: string)
    requires y == [] || !IsDigit(y[0])
    ensures DigitRun(x + y) == DigitRun(x)
    decreases |x|
  {
    if x == [] {
    } else if IsDigit(x[0]) {
      assert (x + y)[1..] == x[1..] + y;
      DigitRunAppend(x[1..], y);
    }
  }

  /** A number written after a prefix and before a non-digit reads back from the digit run after the prefix. */
  lemma NumberAfter(prefix: string, n: nat, rest: string)
    requires rest == [] || !IsDigit(rest[0])
    ensures var r := prefix + NatToString(n) + rest;
            && r[..|prefix|] == prefix
            && ParseNat(DigitRun(r[|prefix|..])) == n
  {
    var d := NatToString(n);
    DigitRunAppend(d, rest);
    DigitRunAllDigits(d);
    ParseNatToString(n);
    assert prefix + d + rest == prefix + (d + rest);
    assert (prefix + (d + rest))[|prefix|..] == d + rest;
  }

  /** Lines joined with a newline between each two, as `"\n".join(lines)`. */
  function Join(lines: seq<string>): string
    decreases |lines|
  {
    if lines == [] then ""
    else if |lines| == 1 then lines[0]
    else lines[0] + "\n" + Join(lines[1..])
  }

  /** Joining one more line adds a separator and the line at the end. */
  lemma {:induction false} JoinSnoc(lines: seq<string>, line: string)
    ensures Join(lines + [line]) == if lines == [] then line else Join(lines) + "\n" + line
    decreases |lines|
  {
    if |lines| > 1 {
      assert (lines + [line])[1..] == lines[1..] + [line];
      JoinSnoc(lines[1..], line);
    }
  }

}
