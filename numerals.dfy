/**
 * Number formatting and parsing of the runtimes the source runs on: decimal and
 * lower-case hexadecimal rendering of integers (`str(n)`, `${n}`,
 * `n.toString(16)`), JavaScript `parseInt` for radix 10 and 16, and the part of
 * Python's `float(s)` that plain decimal notation uses.
 */
module Numerals {
  import opened Wrappers

  /** The lower-case digit for `d` (`0`-`9`, then `a`-`f`). */
  function DigitChar(d: nat): (c: char)
    requires d < 16
  {
    if d < 10 then ('0' as int + d) as char else ('a' as int + d - 10) as char
  }

  /** The value of a digit in base 36 notation (either letter case), if it is one. */
  function DigitValue(c: char): (r: Option<nat>)
    ensures r.Some? ==> r.value < 36
  {
    if '0' <= c <= '9' then Some(c as int - '0' as int)
    else if 'a' <= c <= 'z' then Some(c as int - 'a' as int + 10)
    else if 'A' <= c <= 'Z' then Some(c as int - 'A' as int + 10)
    else None
  }

  predicate IsDigitIn(c: char, radix: nat) { DigitValue(c).Some? && DigitValue(c).value < radix }

  predicate AllDigitsIn(s: string, radix: nat) { forall i :: 0 <= i < |s| ==> IsDigitIn(s[i], radix) }

  lemma DigitCharValue(d: nat)
    requires d < 16
    ensures DigitValue(DigitChar(d)) == Some(d)
  {
  }

  /** Positional value of a string of digits, most significant first. */
  function ValueIn(s: string, radix: nat): (v: nat)
    requires AllDigitsIn(s, radix)
  {
    if s == [] then 0 else ValueIn(s[..|s| - 1], radix) * radix + DigitValue(s[|s| - 1]).value
  }

  /** Digits of `n` in base 10 or 16, most significant first, no leading zero. */
  function Digits(n: nat, radix: nat): (s: string)
    requires radix == 10 || radix == 16
    ensures |s| >= 1
    decreases n
  {
    if n < radix then [DigitChar(n)] else Digits(n / radix, radix) + [DigitChar(n % radix)]
  }

  lemma {:induction false} DigitsAreDigits(n: nat, radix: nat)
    requires radix == 10 || radix == 16
    ensures AllDigitsIn(Digits(n, radix), radix)
    decreases n
  {
    if n >= radix {
      DigitsAreDigits(n / radix, radix);
      assert n % radix < radix by { if radix == 10 {} else {} }
      DigitCharValue(n % radix);
      var s := Digits(n, radix);
      assert s == Digits(n / radix, radix) + [DigitChar(n % radix)];
    } else {
      DigitCharValue(n);
    }
  }

  /** Reading the digits back gives the number: the rendering is exact. */
  lemma {:induction false} DigitsValue(n: nat, radix: nat)
    requires radix == 10 || radix == 16
    ensures AllDigitsIn(Digits(n, radix), radix)
    ensures ValueIn(Digits(n, radix), radix) == n
    decreases n
  {
    DigitsAreDigits(n, radix);
    var s := Digits(n, radix);
    if n < radix {
      DigitCharValue(n);
      assert s[..0] == [];
    } else {
      DigitsValue(n / radix, radix);
      assert n % radix < radix && (n / radix) * radix + n % radix == n by { if radix == 10 {} else {} }
      DigitCharValue(n % radix);
      assert s[..|s| - 1] == Digits(n / radix, radix);
    }
  }

  /** `str(n)` in Python and `${n}` in JavaScript for an integer. */
  function DecimalString(i: int): (s: string)
    ensures |s| >= 1
  {
    if i < 0 then "-" + Digits(-i, 10) else Digits(i, 10)
  }

  /** JavaScript `n.toString(16)` for an integer. */
  function HexString(i: int): (s: string)
    ensures |s| >= 1
  {
    if i < 0 then "-" + Digits(-i, 16) else Digits(i, 16)
  }

  /** JavaScript `s.padStart(n, c)`. */
  function PadStart(s: string, n: nat, c: char): (r: string)
    ensures |r| == if |s| < n then n else |s|
    ensures r[|r| - |s|..] == s
    ensures forall i :: 0 <= i < |r| - |s| ==> r[i] == c
  {
    if |s| < n then seq(n - |s|, _ => c) + s else s
  }

  lemma {:induction false} DigitsLength(n: nat, radix: nat, k: nat)
    requires radix == 10 || radix == 16
    requires n < Pow(radix, k) && k >= 1
    ensures |Digits(n, radix)| <= k
    decreases k
  {
    if n >= radix {
      assert Pow(radix, 1) == radix;
      assert k >= 2;
      assert n / radix < Pow(radix, k - 1) by {
        assert Pow(radix, k) == radix * Pow(radix, k - 1);
        if radix == 10 {} else {}
      }
      DigitsLength(n / radix, radix, k - 1);
    }
  }

  function Pow(b: nat, k: nat): (p: nat)
    ensures b >= 1 ==> p >= 1
  {
    if k == 0 then 1 else b * Pow(b, k - 1)
  }

  /** Leading zeros add nothing to the value. */
  lemma {:induction false} ValueLeadingZeros(z: nat, s: string, radix: nat)
    requires (radix == 10 || radix == 16) && AllDigitsIn(s, radix)
    ensures AllDigitsIn(seq(z, _ => '0') + s, radix)
    ensures ValueIn(seq(z, _ => '0') + s, radix) == ValueIn(s, radix)
    decreases |s|
  {
    var p := seq(z, _ => '0') + s;
    assert forall i :: 0 <= i < |p| ==> IsDigitIn(p[i], radix) by {
      forall i | 0 <= i < |p| ensures IsDigitIn(p[i], radix) {
        if i >= z { assert p[i] == s[i - z]; }
      }
    }
    if s == [] {
      assert p == seq(z, _ => '0');
      ZerosValue(z, radix);
    } else {
      ValueLeadingZeros(z, s[..|s| - 1], radix);
      assert p[..|p| - 1] == seq(z, _ => '0') + s[..|s| - 1];
    }
  }

  lemma {:induction false} ZerosValue(z: nat, radix: nat)
    requires radix == 10 || radix == 16
    ensures AllDigitsIn(seq(z, _ => '0'), radix)
    ensures ValueIn(seq(z, _ => '0'), radix) == 0
    decreases z
  {
    if z > 0 {
      ZerosValue(z - 1, radix);
      assert seq(z, _ => '0')[..z - 1] == seq(z - 1, _ => '0');
    }
  }

  /** Fixed-width rendering: `n.toString(16).padStart(k, "0")` for `n < 16^k` reads back as `n`. */
  lemma PaddedHexValue(n: nat, k: nat)
    requires k >= 1 && n < Pow(16, k)
    ensures |PadStart(HexString(n), k, '0')| == k
    ensures AllDigitsIn(PadStart(HexString(n), k, '0'), 16)
    ensures ValueIn(PadStart(HexString(n), k, '0'), 16) == n
  {
    DigitsLength(n, 16, k);
    DigitsValue(n, 16);
    var s := Digits(n, 16);
    if |s| < k {
      assert PadStart(s, k, '0') == seq(k - |s|, _ => '0') + s;
      ValueLeadingZeros(k - |s|, s, 16);
    }
  }

  // ---------------------------------------------------------------------------
  // JavaScript parseInt(s, radix)

  /** The white space and line terminators JavaScript strips before a number. */
  predicate IsJsSpace(c: char)
  {
    || c == ' ' || ('\t' <= c <= '\r') || c == '\U{a0}' || c == '\U{1680}'
    || ('\U{2000}' <= c <= '\U{200a}') || c == '\U{2028}' || c == '\U{2029}'
    || c == '\U{202f}' || c == '\U{205f}' || c == '\U{3000}' || c == '\U{feff}'
  }

  function SkipJsSpaces(s: string): (r: string)
    ensures |r| <= |s|
  {
    if s != [] && IsJsSpace(s[0]) then SkipJsSpaces(s[1..]) else s
  }

  /** Longest prefix made of digits of the radix. */
  function DigitPrefix(s: string, radix: nat): (r: string)
    ensures |r| <= |s| && r == s[..|r|] && AllDigitsIn(r, radix)
    ensures |r| < |s| ==> !IsDigitIn(s[|r|], radix)
  {
    if s != [] && IsDigitIn(s[0], radix) then [s[0]] + DigitPrefix(s[1..], radix) else []
  }

  /**
   * `parseInt(s, radix)` for radix 10 or 16: skip white space, take an optional
   * sign, for radix 16 an optional `0x`/`0X`, then the longest run of digits.
   * `None` stands for `NaN` (no digit at all).
   */
  function JsParseInt(s: string, radix: nat): (r: Option<int>)
    requires radix == 10 || radix == 16
  {
    var t := SkipJsSpaces(s);
    var negative := t != [] && t[0] == '-';
    var u := if t != [] && (t[0] == '-' || t[0] == '+') then t[1..] else t;
    var v := if radix == 16 && |u| >= 2 && u[0] == '0' && (u[1] == 'x' || u[1] == 'X') then u[2..] else u;
    var d := DigitPrefix(v, radix);
    var magnitude: int := if d == [] then 0 else ValueIn(d, radix);
    if d == [] then None
    else if negative then Some(-magnitude)
    else Some(magnitude)
  }

  /** parseInt of a string made only of digits is the positional value of those digits. */
  lemma {:induction false} ParseIntOfDigits(s: string, radix: nat)
    requires radix == 10 || radix == 16
    requires s != [] && AllDigitsIn(s, radix)
    requires radix == 16 ==> !(|s| >= 2 && s[0] == '0' && (s[1] == 'x' || s[1] == 'X'))
    ensures JsParseInt(s, radix) == Some(ValueIn(s, radix))
  {
    assert SkipJsSpaces(s) == s by { assert !IsJsSpace(s[0]); }
    AllDigitsPrefix(s, radix);
  }

  lemma {:induction false} AllDigitsPrefix(s: string, radix: nat)
    requires AllDigitsIn(s, radix)
    ensures DigitPrefix(s, radix) == s
    decreases |s|
  {
    if s != [] {
      AllDigitsPrefix(s[1..], radix);
    }
  }

  // ---------------------------------------------------------------------------
  // Python float(s), decimal notation only

  function FractionValue(s: string): (v: real)
    requires AllDigitsIn(s, 10)
    ensures 0.0 <= v
    decreases |s|
  {
    if s == [] then 0.0 else (DigitValue(s[0]).value as real + FractionValue(s[1..])) / 10.0
  }

  /**
   * `float(s)` for `[+-]digits[.digits]`, `[+-]digits.` and `[+-].digits`; `None`
   * stands for the `ValueError` Python raises on anything else.
   */
  function PyParseFloat(s: string): (r: Option<real>)
  {
    var negative := s != [] && s[0] == '-';
    var u := if s != [] && (s[0] == '-' || s[0] == '+') then s[1..] else s;
    var whole := DigitPrefix(u, 10);
    var rest := u[|whole|..];
    if rest == [] then
      if whole == [] then None
      else Some(if negative then -(ValueIn(whole, 10) as real) else ValueIn(whole, 10) as real)
    else if rest[0] != '.' then None
    else
      var frac := rest[1..];
      if !AllDigitsIn(frac, 10) || (whole == [] && frac == []) then None
      else
        var magnitude := ValueIn(whole, 10) as real + FractionValue(frac);
        Some(if negative then -magnitude else magnitude)
  }

  /** Python's `str(float(n))` for a whole number of seconds below 10^16: the digits, then ".0". */
  function WholeFloatString(n: nat): (s: string)
  {
    Digits(n, 10) + ".0"
  }

  /** What is written as a whole float reads back as the same number. */
  lemma WholeFloatRoundTrip(n: nat)
    ensures PyParseFloat(WholeFloatString(n)) == Some(n as real)
  {
    var d := Digits(n, 10);
    DigitsValue(n, 10);
    var s := d + ".0";
    assert s[0] != '-' && s[0] != '+' by {
      assert s[0] == d[0];
      assert IsDigitIn(d[0], 10);
    }
    DigitPrefixStops(d, ".0");
    assert s[|d|..] == ".0";
    assert ".0"[1..] == "0";
    assert FractionValue("0") == 0.0 by {
      assert "0"[1..] == [];
    }
  }

  /** What is written as a whole number reads back as the same number. */
  lemma IntegerFloatRoundTrip(n: nat)
    ensures PyParseFloat(Digits(n, 10)) == Some(n as real)
  {
    var d := Digits(n, 10);
    DigitsValue(n, 10);
    assert d[0] != '-' && d[0] != '+' by {
      assert IsDigitIn(d[0], 10);
    }
    AllDigitsPrefix(d, 10);
  }

  lemma {:induction false} DigitPrefixStops(d: string, rest: string)
    requires AllDigitsIn(d, 10) && rest != [] && !IsDigitIn(rest[0], 10)
    ensures DigitPrefix(d + rest, 10) == d
    decreases |d|
  {
    if d == [] {
      assert d + rest == rest;
    } else {
      assert (d + rest)[1..] == d[1..] + rest;
      DigitPrefixStops(d[1..], rest);
      assert [d[0]] + d[1..] == d;
    }
  }
}
