/** Decimal digits: the text side of strconv.Atoi, fmt's %d and %02d, and time formatting. */
module Strings {

  predicate IsDigit(c: char) { '0' <= c <= '9' }

  predicate IsDigits(s: string) { forall i :: 0 <= i < |s| ==> IsDigit(s[i]) }

  /** No line break: the `(.*)$` tail of the package's patterns cannot cross one. */
  predicate NoNewline(s: string) { forall i :: 0 <= i < |s| ==> s[i] != '\n' }

  /** strings.HasPrefix(s, p) */
  predicate IsPrefix(p: string, s: string) { |p| <= |s| && s[..|p|] == p }

  function DigitValue(c: char): (d: nat)
    requires IsDigit(c)
    ensures d < 10
  {
    c as int - '0' as int
  }

  function Digit(d: nat): (c: char)
    requires d < 10
    ensures IsDigit(c) && DigitValue(c) == d
  {
    ('0' as int + d) as char
  }

  /** The number a run of decimal digits denotes (strconv.Atoi, without its overflow error). */
  function DigitsValue(s: string): nat
    requires IsDigits(s)
  {
    if s == [] then 0 else DigitsValue(s[..|s| - 1]) * 10 + DigitValue(s[|s| - 1])
  }

  /** The decimal text of n, as fmt's %d writes it: digits only, no leading zero. */
  function Decimal(n: nat): (r: string)
    ensures |r| > 0 && IsDigits(r)
    ensures DigitsValue(r) == n
    ensures r[0] == '0' ==> r == "0"
  {
    if n < 10 then [Digit(n)]
    else
      var r := Decimal(n / 10) + [Digit(n % 10)];
      assert r[..|r| - 1] == Decimal(n / 10);
      r
  }

  function Zeros(k: nat): (r: string)
    ensures |r| == k && forall i :: 0 <= i < k ==> r[i] == '0'
  {
    if k == 0 then "" else "0" + Zeros(k - 1)
  }

  /** Leading zeros do not change the value of a digit run. */
  lemma {:induction false} ZerosValue(k: nat, s: string)
    requires IsDigits(s)
    ensures IsDigits(Zeros(k) + s) && DigitsValue(Zeros(k) + s) == DigitsValue(s)
  {
    var z := Zeros(k) + s;
    if s == [] {
      if k > 0 {
        ZerosValue(k - 1, s);
        assert z == Zeros(k - 1) + "0";
        assert z[..|z| - 1] == Zeros(k - 1) + s;
      }
    } else {
      ZerosValue(k, s[..|s| - 1]);
      assert z[..|z| - 1] == Zeros(k) + s[..|s| - 1];
    }
  }

  /** n left-padded with zeros to at least `width` characters (fmt's %0Nd, time's "01"/"2006"). */
  function ZeroPad(n: nat, width: nat): (r: string)
    ensures IsDigits(r) && DigitsValue(r) == n
    ensures |r| == if |Decimal(n)| < width then width else |Decimal(n)|
  {
    var d := Decimal(n);
    if |d| < width then
      ZerosValue(width - |d|, d);
      Zeros(width - |d|) + d
    else d
  }

  /** Length of the longest run of digits at the front of s (what `[0-9]+` takes). */
  function DigitRun(s: string): (n: nat)
    ensures n <= |s| && IsDigits(s[..n])
    ensures n < |s| ==> !IsDigit(s[n])
  {
    if s == [] || !IsDigit(s[0]) then 0
    else
      var m := DigitRun(s[1..]);
      assert forall i :: 1 <= i < 1 + m ==> s[i] == s[1..][..m][i - 1];
      1 + m
  }

  /** The decimal text of n read back gives n; it is what DigitRun takes when a non-digit follows. */
  lemma DecimalRun(n: nat, tail: string)
    requires tail == "" || !IsDigit(tail[0])
    ensures DigitRun(Decimal(n) + tail) == |Decimal(n)|
  {
    var d := Decimal(n);
    var s := d + tail;
    var k := DigitRun(s);
    assert forall i :: 0 <= i < |d| ==> s[i] == d[i];
    assert |d| < |s| ==> s[|d|] == tail[0];
  }

  /**
   * A maximal run of digits is determined by the text: two splits of the same
   * string into digits followed by a non-digit (or nothing) are the same split.
   */
  lemma DigitSplitUnique(a: string, b: string, x: string, y: string)
    requires IsDigits(a) && IsDigits(x) && a + b == x + y
    requires b == "" || !IsDigit(b[0])
    requires y == "" || !IsDigit(y[0])
    ensures a == x && b == y
  {
    assert (a + b)[..|a|] == a && (x + y)[..|x|] == x;
    assert |a| == |x|;
    assert b == (a + b)[|a|..] == (x + y)[|x|..] == y;
  }

  lemma NoNewlineAppend(a: string, b: string)
    requires NoNewline(a) && NoNewline(b)
    ensures NoNewline(a + b)
  {
    forall i | 0 <= i < |a + b|
      ensures (a + b)[i] != '\n'
    {
      if i >= |a| {
        assert (a + b)[i] == b[i - |a|];
      }
    }
  }
}
