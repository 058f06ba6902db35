/** Decimal rendering of numbers, as JavaScript template literals,
    `String(n)` and `Number.prototype.toFixed` print them. */
module Text {

  function DigitChar(d: nat): (c: char)
    requires d < 10
    ensures '0' <= c <= '9'
  {
    ['0', '1', '2', '3', '4', '5', '6', '7', '8', '9'][d]
  }

  /** Decimal digits of a natural number, without leading zeros. */
  function NatToString(n: nat): (s: string)
    ensures |s| >= 1
    ensures forall i :: 0 <= i < |s| ==> '0' <= s[i] <= '9'
    decreases n
  {
    if n < 10 then [DigitChar(n)] else NatToString(n / 10) + [DigitChar(n % 10)]
  }

  /** Decimal rendering of an integer, with a leading minus when negative. */
  function IntToString(n: int): (s: string)
    ensures |s| >= 1
    ensures (s[0] == '-') <==> n < 0
  {
    if n < 0 then "-" + NatToString(-n) else NatToString(n)
  }

  /** `Array.prototype.join(sep)`. */
  function Join(parts: seq<string>, sep: string): string
  {
    if |parts| == 0 then "" else if |parts| == 1 then parts[0] else parts[0] + sep + Join(parts[1..], sep)
  }

  predicate StartsWith(s: string, prefix: string)
  {
    |prefix| <= |s| && s[..|prefix|] == prefix
  }

  /** The number a string of decimal digits spells, most significant first. */
  function DigitsValue(s: string): nat
  {
    if |s| == 0 then 0
    else
      var c := s[|s| - 1];
      DigitsValue(s[..|s| - 1]) * 10 + (if '0' <= c <= '9' then (c as int - '0' as int) else 0)
  }

  lemma DigitCharValue(d: nat)
    requires d < 10
    ensures DigitChar(d) as int - '0' as int == d
  {}

  /** Reading back the decimal digits of `n` gives `n`. */
  lemma {:induction false} NatToStringValue(n: nat)
    ensures DigitsValue(NatToString(n)) == n
    decreases n
  {
    var s := NatToString(n);
    if n < 10 {
      DigitCharValue(n);
      assert s[..0] == [];
    } else {
      NatToStringValue(n / 10);
      DigitCharValue(n % 10);
      assert s[..|s| - 1] == NatToString(n / 10);
    }
  }

  function Pow10(k: nat): (p: nat)
    ensures p >= 1
  {
    if k == 0 then 1 else 10 * Pow10(k - 1)
  }

  /** `s` with zeros in front, up to `width` characters. */
  function PadZeros(s: string, width: nat): (r: string)
    ensures |r| == if |s| >= width then |s| else width
    ensures forall i :: 0 <= i < |r| - |s| ==> r[i] == '0'
    ensures r[|r| - |s|..] == s
    decreases width - |s|
  {
    if |s| >= width then s else PadZeros("0" + s, width)
  }

  /** A leading zero does not change the number. */
  lemma {:induction false} LeadingZeroValue(s: string)
    ensures DigitsValue("0" + s) == DigitsValue(s)
  {
    if |s| > 0 {
      LeadingZeroValue(s[..|s| - 1]);
      assert ("0" + s)[..|s|] == "0" + s[..|s| - 1];
    } else {
      assert ("0" + s)[..0] == [];
    }
  }

  lemma {:induction false} PadZerosValue(s: string, width: nat)
    ensures DigitsValue(PadZeros(s, width)) == DigitsValue(s)
    decreases width - |s|
  {
    if |s| < width {
      PadZerosValue("0" + s, width);
      LeadingZeroValue(s);
    }
  }

  /** The `n` of `toFixed`: `x` in units of ten to the minus `digits`, the
      nearest whole number, halves going up. */
  function FixedUnits(x: real, digits: nat): (n: nat)
    requires x >= 0.0
    ensures -0.5 < n as real - Scaled(x, digits) <= 0.5
  {
    ScaledNonNegative(x, digits);
    (Scaled(x, digits) + 0.5).Floor
  }

  /** `x` in units of ten to the minus `digits`. */
  function Scaled(x: real, digits: nat): real
  {
    x * Pow10(digits) as real
  }

  lemma ScaledNonNegative(x: real, digits: nat)
    requires x >= 0.0
    ensures Scaled(x, digits) >= 0.0
  {}

  /** `x.toFixed(digits)` for an `x` below ten to the 21: a minus sign for a
      negative `x`, then its magnitude rounded to `digits` decimals. */
  function ToFixed(x: real, digits: nat): string
  {
    var sign := if x < 0.0 then "-" else "";
    sign + FixedText(FixedUnits(if x < 0.0 then -x else x, digits), digits)
  }

  /** `n` units of ten to the minus `digits` in decimal: the digits of `n`,
      with zeros in front up to `digits` + 1 of them, and when `digits` > 0
      a point before the last `digits`. */
  function FixedText(n: nat, digits: nat): string
  {
    var m := PadZeros(NatToString(n), digits + 1);
    if digits == 0 then m else Pointed(m, digits)
  }

  /** `m` with a point before its last `d` characters. */
  function Pointed(m: string, d: nat): string
    requires d <= |m|
  {
    m[..|m| - d] + "." + m[|m| - d..]
  }

  predicate AllDigits(s: string)
  {
    forall i :: 0 <= i < |s| ==> '0' <= s[i] <= '9'
  }

  lemma PadZerosDigits(s: string, width: nat)
    requires AllDigits(s)
    ensures AllDigits(PadZeros(s, width))
  {
    var r := PadZeros(s, width);
    forall i | 0 <= i < |r| ensures '0' <= r[i] <= '9' {
      if i >= |r| - |s| {
        assert r[i] == r[|r| - |s|..][i - (|r| - |s|)];
      }
    }
  }

  /** `s` is a whole part, a point and exactly `digits` decimal digits,
      and with the point taken out the digits read back as `n`. */
  predicate DecimalShape(s: string, digits: nat, n: nat)
  {
    |s| >= digits + 2 && s[|s| - digits - 1] == '.'
    && AllDigits(s[|s| - digits..])
    && DigitsValue(s[..|s| - digits - 1] + s[|s| - digits..]) == n
  }

  /** With `digits` > 0 the text of `n` units has the decimal shape of `n`. */
  lemma FixedTextShape(n: nat, digits: nat)
    requires digits > 0
    ensures DecimalShape(FixedText(n, digits), digits, n)
  {
    var m := PadZeros(NatToString(n), digits + 1);
    assert AllDigits(m) by {
      PadZerosDigits(NatToString(n), digits + 1);
    }
    assert DigitsValue(m) == n by {
      PadZerosValue(NatToString(n), digits + 1);
      NatToStringValue(n);
    }
    PointShape(m, digits, n);
  }

  /** Putting a point before the last `d` digits of `m`, which spell `n`,
      gives the decimal shape of `n`. */
  lemma PointShape(m: string, d: nat, n: nat)
    requires 0 < d < |m| && AllDigits(m) && DigitsValue(m) == n
    ensures DecimalShape(Pointed(m, d), d, n)
  {
    var whole, decimals := m[..|m| - d], m[|m| - d..];
    var s := Pointed(m, d);
    assert s == whole + "." + decimals;
    PointSplit(whole, decimals);
    assert |s| - d - 1 == |whole|;
    assert s[..|s| - d - 1] == whole;
    assert s[|s| - d..] == decimals;
    assert whole + decimals == m;
    assert AllDigits(decimals) by {
      forall i | 0 <= i < |decimals| ensures '0' <= decimals[i] <= '9' {
        assert decimals[i] == m[|m| - d + i];
      }
    }
  }

  /** The two sides of the point. */
  lemma PointSplit(whole: string, decimals: string)
    ensures var s := whole + "." + decimals;
      |s| == |whole| + |decimals| + 1 && s[|whole|] == '.' && s[..|whole|] == whole && s[|whole| + 1..] == decimals
  {}

  /** For a non-negative `x` and `digits` > 0, `x.toFixed(digits)` is a
      whole part, a point and exactly `digits` decimals; without the point
      they spell `x` rounded to that many decimals, in units of ten to the
      minus `digits`. */
  lemma {:induction false} ToFixedShape(x: real, digits: nat)
    requires x >= 0.0 && digits > 0
    ensures DecimalShape(ToFixed(x, digits), digits, FixedUnits(x, digits))
  {
    ToFixedNonNegative(x, digits);
    FixedTextShape(FixedUnits(x, digits), digits);
  }

  lemma ToFixedNonNegative(x: real, digits: nat)
    requires x >= 0.0
    ensures ToFixed(x, digits) == FixedText(FixedUnits(x, digits), digits)
  {
    var t := FixedText(FixedUnits(x, digits), digits);
    assert "" + t == t;
  }
}
