/**
 * Python's `format(n, '06x')` on an integer, as used by the f-string
 * `f"#{rgb:06x}"`: lowercase base-16 digits, zero-padded on the left to a
 * width of six; for a negative number the sign counts toward the width.
 */
module Hex {

  predicate IsHexDigit(c: char) {
    ('0' <= c <= '9') || ('a' <= c <= 'f')
  }

  predicate AllHexDigits(s: string) {
    forall i | 0 <= i < |s| :: IsHexDigit(s[i])
  }

  function Digit(d: nat): (c: char)
    requires d < 16
    ensures IsHexDigit(c)
  {
    "0123456789abcdef"[d]
  }

  function DigitValue(c: char): (d: nat)
    requires IsHexDigit(c)
    ensures d < 16
  {
    if c <= '9' then c as nat - '0' as nat else c as nat - 'a' as nat + 10
  }

  /** `n` in base 16 without leading zeros ("0" for zero). */
  function ToHex(n: nat): (r: string)
    ensures |r| >= 1 && AllHexDigits(r)
    decreases n
  {
    if n < 16 then [Digit(n)] else ToHex(n / 16) + [Digit(n % 16)]
  }

  /** The number a string of hex digits denotes: the inverse of `ToHex`. */
  function HexValue(s: string): nat
    requires AllHexDigits(s)
  {
    if s == [] then 0 else HexValue(s[..|s| - 1]) * 16 + DigitValue(s[|s| - 1])
  }

  function Pow16(k: nat): (p: nat)
    ensures p >= 1
  {
    if k == 0 then 1 else 16 * Pow16(k - 1)
  }

  function Zeros(k: nat): (z: string)
    ensures |z| == k && AllHexDigits(z)
  {
    if k == 0 then [] else Zeros(k - 1) + ['0']
  }

  /** `s` zero-padded on the left to at least `width` characters. */
  function PadLeft(s: string, width: nat): (r: string)
    ensures |r| == if |s| >= width then |s| else width
  {
    if |s| >= width then s else Zeros(width - |s|) + s
  }

  /** `format(n, '06x')` */
  function Format06x(n: int): string
  {
    if n >= 0 then PadLeft(ToHex(n), 6) else "-" + PadLeft(ToHex(-n), 5)
  }

  lemma {:induction false} DigitRoundTrip(d: nat)
    requires d < 16
    ensures DigitValue(Digit(d)) == d
  {
    var digits := "0123456789abcdef";
    assert digits[d] as nat == if d < 10 then '0' as nat + d else 'a' as nat + d - 10;
  }

  /** Reading back the digits gives the number. */
  lemma {:induction false} ToHexRoundTrip(n: nat)
    ensures HexValue(ToHex(n)) == n
    decreases n
  {
    if n < 16 {
      DigitRoundTrip(n);
    } else {
      var r := ToHex(n);
      assert r[..|r| - 1] == ToHex(n / 16);
      ToHexRoundTrip(n / 16);
      DigitRoundTrip(n % 16);
    }
  }

  /** Leading zeros do not change the value. */
  lemma {:induction false} ZerosValue(k: nat, s: string)
    requires AllHexDigits(s)
    ensures AllHexDigits(Zeros(k) + s) && HexValue(Zeros(k) + s) == HexValue(s)
    decreases |s|, k
  {
    if s == [] {
      assert Zeros(k) + s == Zeros(k);
      if k > 0 {
        assert Zeros(k)[..k - 1] == Zeros(k - 1) + [];
        ZerosValue(k - 1, []);
      }
    } else {
      var z := Zeros(k) + s;
      assert z[..|z| - 1] == Zeros(k) + s[..|s| - 1];
      ZerosValue(k, s[..|s| - 1]);
    }
  }

  /** `ToHex(n)` has at most `k` digits exactly when `n < 16^k`. */
  lemma {:induction false} ToHexLength(n: nat, k: nat)
    requires k >= 1
    ensures |ToHex(n)| <= k <==> n < Pow16(k)
    decreases n
  {
    if n >= 16 {
      if k == 1 {
        assert Pow16(1) == 16;
        ToHexLength(n / 16, 1);
      } else {
        ToHexLength(n / 16, k - 1);
      }
    } else {
      PowAtLeast16(k);
    }
  }

  lemma {:induction false} PowAtLeast16(k: nat)
    requires k >= 1
    ensures Pow16(k) >= 16
  {
    if k > 1 { PowAtLeast16(k - 1); }
  }

  /**
   * For a value in [0, 16^6) the rendering is exactly six lowercase hex
   * digits, and they denote the value.
   */
  lemma SixDigits(n: int)
    requires 0 <= n < 0x100_0000
    ensures |Format06x(n)| == 6 && AllHexDigits(Format06x(n))
    ensures HexValue(Format06x(n)) == n
  {
    assert Pow16(6) == 0x100_0000;
    ToHexLength(n, 6);
    ToHexRoundTrip(n);
    ZerosValue(6 - |ToHex(n)|, ToHex(n));
  }

  /** A positive value has no leading zero digit. */
  lemma {:induction false} NoLeadingZero(n: nat)
    requires n > 0
    ensures ToHex(n)[0] != '0'
    decreases n
  {
    if n >= 16 {
      NoLeadingZero(n / 16);
      assert ToHex(n)[0] == ToHex(n / 16)[0];
    } else {
      assert "0123456789abcdef"[n] != '0';
    }
  }

  /**
   * A value of 16^6 or more is rendered without padding: more than six
   * digits, as many as the value needs, the first not a zero.
   */
  lemma WiderThanSix(n: int)
    requires n >= 0x100_0000
    ensures |Format06x(n)| > 6 && AllHexDigits(Format06x(n))
    ensures |Format06x(n)| == |ToHex(n)| && Format06x(n)[0] != '0'
    ensures HexValue(Format06x(n)) == n
  {
    assert Pow16(6) == 0x100_0000;
    ToHexLength(n, 6);
    ToHexRoundTrip(n);
    NoLeadingZero(n);
  }

  /**
   * A negative value is rendered as '-' and the digits of its magnitude,
   * zero-padded to five: the sign takes one place of the width of six.
   */
  lemma Negative(n: int)
    requires n < 0
    ensures var r := Format06x(n);
      |r| >= 6 && r[0] == '-' && AllHexDigits(r[1..]) && HexValue(r[1..]) == -n
    ensures |Format06x(n)| == 1 + if |ToHex(-n)| >= 5 then |ToHex(-n)| else 5
  {
    var r := Format06x(n);
    var h := ToHex(-n);
    ToHexRoundTrip(-n);
    if |h| < 5 {
      ZerosValue(5 - |h|, h);
    }
    assert r[1..] == PadLeft(h, 5);
  }
}
