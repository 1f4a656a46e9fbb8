/**
 * Decimal rendering of integers as Python's `str` produces it, and the
 * left zero padding of `str.zfill`, together with the parsers that invert
 * them. The date labels and the print-area reference of the sheet are built
 * from these.
 */
module Decimal {
  import opened Wrappers

  predicate IsDigit(c: char) {
    '0' <= c <= '9'
  }

  predicate AllDigits(s: string) {
    forall k :: 0 <= k < |s| ==> IsDigit(s[k])
  }

  function DigitChar(d: nat): (c: char)
    requires d < 10
    ensures IsDigit(c) && c as int - '0' as int == d
  {
    (d + '0' as int) as char
  }

  /** The value of a string of decimal digits, most significant first. */
  function DigitsValue(s: string): nat
    requires AllDigits(s)
  {
    if s == [] then 0
    else DigitsValue(s[..|s| - 1]) * 10 + (s[|s| - 1] as int - '0' as int)
  }

  /** `str(n)` for a non-negative integer; `DecimalRoundTrip` shows it is all digits. */
  function NatToDecimal(n: nat): (s: string)
    ensures |s| >= 1
  {
    if n < 10 then [DigitChar(n)]
    else NatToDecimal(n / 10) + [DigitChar(n % 10)]
  }

  /** `str(n)` has no leading zero, and is a single digit exactly below ten. */
  lemma {:induction false} NatToDecimalShape(n: nat)
    ensures NatToDecimal(n)[0] == '0' ==> n == 0
    ensures n < 10 <==> |NatToDecimal(n)| == 1
  {
    if n >= 10 {
      NatToDecimalShape(n / 10);
      assert NatToDecimal(n)[0] == NatToDecimal(n / 10)[0];
    }
  }

  /** `str(i)` for any integer: a minus sign before the digits when negative. */
  function IntToDecimal(i: int): string {
    if i < 0 then "-" + NatToDecimal(-i) else NatToDecimal(i)
  }

  /** Reads back an optionally signed decimal numeral. */
  function ParseInt(s: string): Option<int> {
    if |s| >= 2 && s[0] == '-' && AllDigits(s[1..]) then Some(-(DigitsValue(s[1..]) as int))
    else if |s| >= 1 && AllDigits(s) then Some(DigitsValue(s))
    else None
  }

  /**
   * `s.zfill(width)` for a string without a sign: zeros are put in front
   * until the string is `width` long; a longer string is left as it is.
   */
  function ZeroFill(s: string, width: nat): (r: string)
    ensures |r| == if |s| >= width then |s| else width
    decreases width - |s|
  {
    if |s| >= width then s else ZeroFill("0" + s, width)
  }

  /** `zfill` ends with the original string and has only zeros in front of it. */
  lemma {:induction false} ZeroFillShape(s: string, width: nat)
    ensures var r := ZeroFill(s, width);
      r[|r| - |s|..] == s && forall k :: 0 <= k < |r| - |s| ==> r[k] == '0'
    decreases width - |s|
  {
    if |s| < width {
      var t := "0" + s;
      ZeroFillShape(t, width);
      var r := ZeroFill(s, width);
      assert r == ZeroFill(t, width);
      assert r[|r| - |t|..] == t;
      assert r[|r| - |s|..] == t[1..];
      assert r[|r| - |t|] == '0';
    }
  }

  /** `str(n)` is all digits, and reading them back gives `n`. */
  lemma {:induction false} DecimalRoundTrip(n: nat)
    ensures AllDigits(NatToDecimal(n)) && DigitsValue(NatToDecimal(n)) == n
  {
    var s := NatToDecimal(n);
    if n < 10 {
      assert s == [DigitChar(n)];
    } else {
      var front := NatToDecimal(n / 10);
      DecimalRoundTrip(n / 10);
      assert s == front + [DigitChar(n % 10)];
      assert s[..|s| - 1] == front;
      assert forall k :: 0 <= k < |s| - 1 ==> s[k] == front[k];
    }
  }

  /** `str` and `ParseInt` are inverse: every integer is read back from its rendering. */
  lemma IntRoundTrip(i: int)
    ensures ParseInt(IntToDecimal(i)) == Some(i)
  {
    var s := IntToDecimal(i);
    if i < 0 {
      var d := NatToDecimal(-i);
      assert s[0] == '-' && s[1..] == d;
      DecimalRoundTrip(-i);
      assert ParseInt(s) == Some(-(DigitsValue(d) as int));
    } else {
      DecimalRoundTrip(i);
    }
  }

  /** A number below 100 zero-filled to width 2 is exactly two digits that read back as it. */
  lemma TwoDigitRoundTrip(n: nat)
    requires n < 100
    ensures var s := ZeroFill(NatToDecimal(n), 2);
      |s| == 2 && AllDigits(s) && DigitsValue(s) == n
  {
    var d := NatToDecimal(n);
    var s := ZeroFill(d, 2);
    if n < 10 {
      assert d == [DigitChar(n)];
      assert s == ZeroFill("0" + d, 2) == "0" + d;
      assert s == ['0', DigitChar(n)];
      assert s[..1] == ['0'];
      assert DigitsValue(['0']) == 0 by {
        assert ['0'][..0] == [];
      }
    } else {
      NatToDecimalShape(n / 10);
      assert |d| == 2;
      assert s == d;
      DecimalRoundTrip(n);
    }
  }
}
