/**
 * Python's decimal integer text: `format(n, "0{w}d")` (and `str(n)`, which is width 0)
 * and `int(s)` on the strings that formatting produces.
 */
module Decimal {

  predicate IsDigit(c: char)
  {
    '0' <= c <= '9'
  }

  predicate AllDigits(s: string)
  {
    forall i :: 0 <= i < |s| ==> IsDigit(s[i])
  }

  function DigitChar(d: nat): (c: char)
    requires d < 10
    ensures IsDigit(c)
  {
    ('0' as int + d) as char
  }

  function DigitValue(c: char): int
  {
    c as int - '0' as int
  }

  /** The shortest decimal numeral of n. */
  function NatDigits(n: nat): (s: string)
    ensures |s| >= 1 && AllDigits(s)
    ensures n < 10 <==> |s| == 1
  {
    if n < 10 then [DigitChar(n)] else NatDigits(n / 10) + [DigitChar(n % 10)]
  }

  function Zeros(k: nat): (s: string)
    ensures |s| == k && forall i :: 0 <= i < k ==> s[i] == '0'
  {
    seq(k, _ => '0')
  }

  /** Left-pads s with zeros to at least `width` characters. */
  function ZeroPad(s: string, width: nat): (r: string)
    ensures |r| == if |s| >= width then |s| else width
    ensures AllDigits(s) ==> AllDigits(r)
  {
    if |s| >= width then s else Zeros(width - |s|) + s
  }

  /**
   * `format(n, "0{width}d")`: a minus sign for negative n, then the digits of |n|
   * zero-padded so that sign and digits together fill at least `width` characters.
   */
  function FormatInt(n: int, width: nat): string
  {
    if n < 0 then "-" + ZeroPad(NatDigits(-n), if width > 0 then width - 1 else 0)
    else ZeroPad(NatDigits(n), width)
  }

  /** The text Python's `int()` accepts here: an optional minus sign and at least one digit. */
  predicate IsDecimal(s: string)
  {
    if |s| > 0 && s[0] == '-' then |s| >= 2 && AllDigits(s[1..]) else |s| >= 1 && AllDigits(s)
  }

  /** Value of a digit string (read left to right; other characters count as their code minus '0'). */
  function ParseDigits(s: string): int
  {
    if s == [] then 0 else ParseDigits(s[..|s| - 1]) * 10 + DigitValue(s[|s| - 1])
  }

  /** Python's `int(s)` on a decimal numeral. */
  function ParseInt(s: string): int
  {
    if |s| > 0 && s[0] == '-' then -ParseDigits(s[1..]) else ParseDigits(s)
  }

  lemma {:induction false} ParseNatDigits(n: nat)
    ensures ParseDigits(NatDigits(n)) == n
  {
    if n >= 10 {
      var s := NatDigits(n);
      assert s[..|s| - 1] == NatDigits(n / 10);
      ParseNatDigits(n / 10);
    }
  }

  lemma {:induction false} ParseZeros(k: nat)
    ensures ParseDigits(Zeros(k)) == 0
  {
    if k > 0 {
      assert Zeros(k)[..k - 1] == Zeros(k - 1);
      ParseZeros(k - 1);
    }
  }

  /** Leading zeros do not change the value `int()` reads. */
  lemma {:induction false} ParseLeadingZeros(k: nat, s: string)
    ensures ParseDigits(Zeros(k) + s) == ParseDigits(s)
  {
    if s == [] {
      assert Zeros(k) + s == Zeros(k);
      ParseZeros(k);
    } else {
      var t := Zeros(k) + s;
      assert t[..|t| - 1] == Zeros(k) + s[..|s| - 1];
      ParseLeadingZeros(k, s[..|s| - 1]);
    }
  }

  lemma ParsePadded(n: nat, width: nat)
    ensures ParseDigits(ZeroPad(NatDigits(n), width)) == n
  {
    var s := NatDigits(n);
    ParseNatDigits(n);
    if |s| < width {
      ParseLeadingZeros(width - |s|, s);
    }
  }

  lemma ParseFormatNonNegative(n: nat, width: nat)
    ensures IsDecimal(FormatInt(n, width))
    ensures ParseInt(FormatInt(n, width)) == n
  {
    var s := ZeroPad(NatDigits(n), width);
    assert FormatInt(n, width) == s;
    assert IsDigit(s[0]);
    assert ParseInt(s) == ParseDigits(s);
    ParsePadded(n, width);
  }

  lemma ParseFormatNegative(n: int, width: nat)
    requires n < 0
    ensures IsDecimal(FormatInt(n, width))
    ensures ParseInt(FormatInt(n, width)) == n
  {
    var m: nat := -n;
    var w: nat := if width > 0 then width - 1 else 0;
    NegativeText(n, width, m, w);
    ParsePadded(m, w);
    ParseSigned(ZeroPad(NatDigits(m), w));
  }

  lemma NegativeText(n: int, width: nat, m: nat, w: nat)
    requires n < 0 && m == -n && w == if width > 0 then width - 1 else 0
    ensures FormatInt(n, width) == "-" + ZeroPad(NatDigits(m), w)
  {
  }

  /** A minus sign before a digit string makes a numeral that reads as the negated value. */
  lemma ParseSigned(body: string)
    requires |body| >= 1 && AllDigits(body)
    ensures IsDecimal("-" + body)
    ensures ParseInt("-" + body) == -ParseDigits(body)
  {
    assert ("-" + body)[1..] == body;
  }

  /** Round trip: `int(format(n, "0{width}d")) == n`, and the text is always a decimal numeral. */
  lemma ParseFormatInt(n: int, width: nat)
    ensures IsDecimal(FormatInt(n, width))
    ensures ParseInt(FormatInt(n, width)) == n
  {
    if n < 0 {
      ParseFormatNegative(n, width);
    } else {
      ParseFormatNonNegative(n, width);
    }
  }

  /** A non-negative value below 1000 formatted with width 3 takes exactly three characters. */
  lemma ThreeDigitWidth(n: int)
    requires 0 <= n < 1000
    ensures |FormatInt(n, 3)| == 3
  {
    if n >= 100 {
      assert |NatDigits(n / 10)| == 2 by { assert 10 <= n / 10 < 100; }
    } else if n >= 10 {
      assert |NatDigits(n)| == 2;
    }
  }
}
