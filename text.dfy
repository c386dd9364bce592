/**
 * Decimal rendering of numbers, as Python's format specifications
 * `{n:d}`, `{n:2d}` and `{n:02d}` and strftime's `%d`, `%m`, `%Y` produce it,
 * together with the digit reading that undoes it.
 */
module Text {

  predicate IsDigit(c: char) {
    '0' <= c <= '9'
  }

  predicate AllDigits(s: string) {
    forall i :: 0 <= i < |s| ==> IsDigit(s[i])
  }

  function DigitChar(d: nat): (c: char)
    requires d < 10
    ensures IsDigit(c)
  {
    ('0' as int + d) as char
  }

  function DigitValue(c: char): (d: nat)
    requires IsDigit(c)
    ensures d < 10 && DigitChar(d) == c
  {
    c as int - '0' as int
  }

  function Pow10(n: nat): (p: nat)
    ensures p >= 1
  {
    if n == 0 then 1 else 10 * Pow10(n - 1)
  }

  /** The number a string of decimal digits denotes (leading zeros allowed). */
  function DigitsValue(s: string): nat
    requires AllDigits(s)
  {
    if s == [] then 0 else DigitsValue(s[..|s| - 1]) * 10 + DigitValue(s[|s| - 1])
  }

  /**
   * `n` in exactly `width` digits, zero-padded on the left (`{n:02d}`, `%m`)
   * when `n < 10^width`. A wider number keeps only its low `width` digits,
   * where Python would print all of them; every caller stays below the width.
   */
  function ZeroPadded(n: nat, width: nat): (s: string)
    ensures |s| == width && AllDigits(s)
  {
    if width == 0 then [] else ZeroPadded(n / 10, width - 1) + [DigitChar(n % 10)]
  }

  /** Reading back a zero-padded rendering gives the number, when it fits the width. */
  lemma {:induction false} ZeroPaddedReadsBack(n: nat, width: nat)
    requires n < Pow10(width)
    ensures DigitsValue(ZeroPadded(n, width)) == n
  {
    if width > 0 {
      var s := ZeroPadded(n, width);
      var prefix := ZeroPadded(n / 10, width - 1);
      assert s[..|s| - 1] == prefix;
      assert DigitValue(s[|s| - 1]) == n % 10;
      DropLastDigit(n, Pow10(width - 1));
      ZeroPaddedReadsBack(n / 10, width - 1);
    }
  }

  /** Dropping the last decimal digit of a number below `10 * p` leaves one below `p`. */
  lemma DropLastDigit(n: nat, p: nat)
    requires n < 10 * p
    ensures n / 10 < p && n / 10 * 10 + n % 10 == n
  {
  }

  /** The shortest decimal rendering of `n` (`{n:d}` for n >= 0). */
  function Decimal(n: nat): (s: string)
    ensures |s| >= 1 && AllDigits(s)
    ensures s[0] == '0' ==> n == 0
  {
    if n < 10 then [DigitChar(n)] else Decimal(n / 10) + [DigitChar(n % 10)]
  }

  lemma {:induction false} DecimalReadsBack(n: nat)
    ensures DigitsValue(Decimal(n)) == n
  {
    if n >= 10 {
      var s := Decimal(n);
      assert s[..|s| - 1] == Decimal(n / 10);
      DecimalReadsBack(n / 10);
    }
  }

  /** `{i:d}` for any integer: a minus sign, then the digits of the magnitude. */
  function IntToString(i: int): string {
    if i < 0 then "-" + Decimal(-i) else Decimal(i)
  }

  /** Right-aligns `s` in a field of `width` characters, as `{x:2d}` does; never truncates. */
  function PadLeft(s: string, width: nat): (r: string)
    ensures |r| == if |s| < width then width else |s|
    ensures r[|r| - |s|..] == s
    ensures forall i :: 0 <= i < |r| - |s| ==> r[i] == ' '
  {
    if |s| >= width then s else seq(width - |s|, _ => ' ') + s
  }

  /** Drops leading spaces: what a reader of a right-aligned field does. */
  function TrimLeft(s: string): (r: string)
    ensures |r| <= |s| && r == s[|s| - |r|..]
    ensures r != [] ==> r[0] != ' '
  {
    if s != [] && s[0] == ' ' then TrimLeft(s[1..]) else s
  }

  lemma {:induction false} TrimPadLeft(s: string, width: nat)
    requires s != [] && s[0] != ' '
    ensures TrimLeft(PadLeft(s, width)) == s
  {
    var p := PadLeft(s, width);
    var k := |p| - |s|;
    TrimSpaces(p, k);
  }

  /** Trimming a string whose first `k` characters are spaces and whose (k+1)-th is not. */
  lemma {:induction false} TrimSpaces(p: string, k: nat)
    requires k < |p| && p[k] != ' '
    requires forall i :: 0 <= i < k ==> p[i] == ' '
    ensures TrimLeft(p) == p[k..]
  {
    if k > 0 {
      assert p[1..][k - 1..] == p[k..];
      TrimSpaces(p[1..], k - 1);
    }
  }
}
