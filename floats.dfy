/** Go's `%v` of a `float64` (`strconv.FormatFloat` with format `'g'`
    and shortest precision), for the values a JSON number that is an
    exact integer decodes to. */
module Floats {
  import Strs

  function Pow10(k: nat): (p: nat)
    ensures p >= 1
  {
    if k == 0 then 1 else 10 * Pow10(k - 1)
  }

  /** `s` without its trailing zeros. */
  function StripZeros(s: string): (r: string)
    ensures r <= s
    ensures |r| == 0 || r[|r| - 1] != '0'
    ensures forall k :: |r| <= k < |s| ==> s[k] == '0'
  {
    if |s| > 0 && s[|s| - 1] == '0' then StripZeros(s[..|s| - 1]) else s
  }

  /** `d.ddd` from the digits `d ddd`; a single digit has no point. */
  function Mantissa(m: string): string
  {
    if |m| <= 1 then m else [m[0]] + "." + m[1..]
  }

  /** The exponent of `%e`: at least two digits. */
  function ExponentText(e: nat): string
  {
    if e < 10 then "0" + Strs.NatToString(e) else Strs.NatToString(e)
  }

  /** Go's `%v` of a `float64` that holds the integer `n` exactly (`'g'`
      format, shortest precision): a minus sign for negatives, then the
      text of the magnitude. */
  function FloatToString(n: int): string
  {
    if n < 0 then "-" + Magnitude(-n) else Magnitude(n)
  }

  /** The digits of `a` below a million, and from a million on its digits
      without trailing zeros as a mantissa `d.ddd` with the exponent
      `e+XX`. */
  function Magnitude(a: nat): string
  {
    var digits := Strs.NatToString(a);
    if |digits| <= 6 then digits
    else Mantissa(StripZeros(digits)) + "e+" + ExponentText(|digits| - 1)
  }

  /** A number has at most `k` digits exactly when it is below `10^k`. */
  lemma {:induction false} DigitCount(n: nat, k: nat)
    requires k >= 1
    ensures |Strs.NatToString(n)| <= k <==> n < Pow10(k)
  {
    if k == 1 {
      assert Pow10(1) == 10;
    } else {
      assert Pow10(k) == 10 * Pow10(k - 1);
      if n >= 10 {
        DigitCount(n / 10, k - 1);
      } else {
        DigitCount(n, k - 1);
      }
    }
  }

  lemma TimesTen(x: nat, p: nat)
    ensures (x * p) * 10 == x * (10 * p)
  {
  }

  /** Appending `k` zeros multiplies by `10^k`. */
  lemma {:induction false} ZerosValue(m: string, s: string)
    requires m <= s
    requires forall k :: 0 <= k < |s| ==> Strs.IsDigit(s[k])
    requires forall k :: |m| <= k < |s| ==> s[k] == '0'
    ensures Strs.DigitsValue(s) == Strs.DigitsValue(m) * Pow10(|s| - |m|)
    decreases |s|
  {
    if |s| > |m| {
      var init := s[..|s| - 1];
      assert m <= init by {
        assert m == s[..|m|] && init[..|m|] == s[..|m|];
      }
      ZerosValue(m, init);
      assert s[|s| - 1] == '0';
      assert Strs.DigitsValue(s) == Strs.DigitsValue(init) * 10;
      assert Pow10(|s| - |m|) == 10 * Pow10(|init| - |m|);
      TimesTen(Strs.DigitsValue(m), Pow10(|init| - |m|));
    } else {
      assert m == s;
    }
  }

  /** Below a million in magnitude, `%v` of the float prints the integer
      as `%d` would. */
  lemma FloatPlain(n: int)
    requires -1000000 < n < 1000000
    ensures FloatToString(n) == Strs.IntToString(n)
  {
    DigitCount(if n < 0 then -n else n, 6);
  }

  /** The digits of a positive number without trailing zeros: non-empty,
      led by a non-zero digit, and reading back as the number once the
      zeros are restored. */
  lemma Significant(a: nat)
    requires a >= 1
    ensures var digits := Strs.NatToString(a);
      var m := StripZeros(digits);
      && 1 <= |m| <= |digits| && m[0] != '0' && m[|m| - 1] != '0'
      && (forall k :: 0 <= k < |m| ==> Strs.IsDigit(m[k]))
      && Strs.DigitsValue(m) * Pow10(|digits| - |m|) == a
  {
    var digits := Strs.NatToString(a);
    var m := StripZeros(digits);
    if |m| == 0 {
      assert digits[0] == '0';
      assert |digits| == 1;
      Strs.NatToStringRoundTrip(a);
      assert false;
    }
    assert m[0] == digits[0];
    assert m[0] != '0' by {
      if |digits| == 1 {
        Strs.NatToStringRoundTrip(a);
      }
    }
    Strs.NatToStringRoundTrip(a);
    ZerosValue(m, digits);
  }

  /** From a million on, the magnitude is a mantissa and an exponent `e`
      with `10^e <= a < 10^(e+1)`; the mantissa's digits start with a
      non-zero digit and end without a zero, and times the power of ten
      that the exponent leaves they read back as `a`. */
  lemma FloatExponent(a: nat)
    requires 1000000 <= a
    ensures var digits := Strs.NatToString(a);
      var m, e := StripZeros(digits), |digits| - 1;
      && Magnitude(a) == Mantissa(m) + "e+" + ExponentText(e)
      && 6 <= e && Pow10(e) <= a < Pow10(e + 1)
      && 1 <= |m| <= e + 1 && m[0] != '0' && m[|m| - 1] != '0'
      && (forall k :: 0 <= k < |m| ==> Strs.IsDigit(m[k]))
      && Strs.DigitsValue(m) * Pow10(e + 1 - |m|) == a
  {
    var digits := Strs.NatToString(a);
    var e := |digits| - 1;
    assert 6 <= e by {
      DigitCount(a, 6);
    }
    assert Pow10(e) <= a by {
      DigitCount(a, e);
    }
    assert a < Pow10(e + 1) by {
      DigitCount(a, e + 1);
    }
    Significant(a);
  }

  /** Decimal digits hold no exponent mark. */
  lemma DigitsUnmarked(d: string)
    requires forall k :: 0 <= k < |d| ==> Strs.IsDigit(d[k])
    ensures 'e' !in d
  {
  }

  /** The magnitude is in exponent form exactly from a million on. */
  lemma MagnitudeMark(a: nat)
    ensures 'e' in Magnitude(a) <==> 1000000 <= a
  {
    var d := Strs.NatToString(a);
    DigitCount(a, 6);
    if |d| <= 6 {
      DigitsUnmarked(d);
    } else {
      var mant := Mantissa(StripZeros(d));
      assert Magnitude(a) == mant + "e+" + ExponentText(|d| - 1);
      assert Magnitude(a)[|mant|] == 'e';
    }
  }

  lemma SignUnmarked(t: string)
    ensures 'e' in "-" + t <==> 'e' in t
  {
    if 'e' in "-" + t {
      var j :| 0 <= j < |"-" + t| && ("-" + t)[j] == 'e';
      assert t[j - 1] == 'e';
    }
    if 'e' in t {
      var j :| 0 <= j < |t| && t[j] == 'e';
      assert ("-" + t)[j + 1] == 'e';
    }
  }

  /** The text is in exponent form exactly from a million on in
      magnitude. */
  lemma ExponentMark(n: int)
    ensures 'e' in FloatToString(n) <==> n <= -1000000 || 1000000 <= n
  {
    if n < 0 {
      NegativeMark(n);
    } else {
      MagnitudeMark(n);
    }
  }

  lemma NegativeMark(n: int)
    requires n < 0
    ensures 'e' in FloatToString(n) <==> n <= -1000000
  {
    var a: nat := -n;
    assert FloatToString(n) == "-" + Magnitude(a);
    MagnitudeMark(a);
    SignUnmarked(Magnitude(a));
  }

  /** A million is `1e+06`. */
  lemma FloatMillion(n: int)
    requires n == 1000000
    ensures FloatToString(n) == "1e+06"
  {
    assert Strs.NatToString(1) == "1";
    assert Strs.NatToString(10) == "10";
    assert Strs.NatToString(100) == "100";
    assert Strs.NatToString(1000) == "1000";
    assert Strs.NatToString(10000) == "10000";
    assert Strs.NatToString(100000) == "100000";
    assert Strs.NatToString(1000000) == "1000000";
    assert StripZeros("1000000") == "1";
    assert ExponentText(6) == "06";
  }
}
