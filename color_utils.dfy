/**
 * The colour helper `withOpacity` (app/src/styles/utilities.ts, repeated in
 * app/src/styles/buildTheme.ts): a "#rrggbb" colour is read as one
 * hexadecimal number, split into red, green and blue with 32-bit shifts and
 * masks, and written as an "rgba(...)" string with the opacity clamped to
 * [0, 1]. The JavaScript integer semantics the split relies on are written
 * out here.
 */
module ColorUtils {
  import opened Wrappers
  import opened Numerals

  /** `s.replace(c, "")` for a one-character string: only the first occurrence goes. */
  function ReplaceFirst(s: string, c: char): (r: string)
    ensures c !in s ==> r == s
    ensures c in s ==> |r| == |s| - 1
    ensures s != [] && s[0] == c ==> r == s[1..]
  {
    if s == [] then []
    else if s[0] == c then s[1..]
    else [s[0]] + ReplaceFirst(s[1..], c)
  }

  /** Wherever the first `c` sits, exactly that character is dropped and the rest kept in order. */
  lemma {:induction false} ReplaceFirstAt(s: string, c: char, i: nat)
    requires i < |s| && s[i] == c && c !in s[..i]
    ensures ReplaceFirst(s, c) == s[..i] + s[i + 1..]
  {
    if i > 0 {
      assert s[0] == s[..i][0];
      assert s[1..][..i - 1] == s[1..i];
      assert s[1..][i - 1] == c && c !in s[1..][..i - 1];
      ReplaceFirstAt(s[1..], c, i - 1);
      assert s[..i] == [s[0]] + s[1..][..i - 1];
      assert s[i + 1..] == s[1..][i..];
    }
  }

  /** `parseInt(hex.replace("#", ""), 16)`; `None` stands for `NaN`. */
  function ParseHex(hex: string): Option<int>
  {
    JsParseInt(ReplaceFirst(hex, '#'), 16)
  }

  const TwoTo31 := 0x8000_0000
  const TwoTo32 := 0x1_0000_0000

  /** ECMAScript ToInt32 of an integral number: wrap into [-2^31, 2^31). */
  function ToInt32(x: int): (r: int)
    ensures -TwoTo31 <= r < TwoTo31
    ensures (r - x) % TwoTo32 == 0
    ensures -TwoTo31 <= x < TwoTo31 ==> r == x
  {
    (x + TwoTo31) % TwoTo32 - TwoTo31
  }

  /** The 32-bit operand the bit operators see; `NaN` becomes 0. */
  function Int32Of(num: Option<int>): (r: int)
    ensures -TwoTo31 <= r < TwoTo31
    ensures num.None? ==> r == 0
  {
    if num.None? then 0 else ToInt32(num.value)
  }

  /** `num >> k` for k = 8 or 16: an arithmetic shift, which rounds down. */
  function ShiftRight(num: Option<int>, k: nat): (r: int)
    requires k == 8 || k == 16
  {
    Int32Of(num) / (if k == 8 then 256 else 65536)
  }

  /** `(num >> 16) & 255`, `(num >> 8) & 255` and `num & 255`; `& 255` keeps the low byte. */
  function Channels(num: Option<int>): (c: (int, int, int))
    ensures 0 <= c.0 < 256 && 0 <= c.1 < 256 && 0 <= c.2 < 256
  {
    (ShiftRight(num, 16) % 256, ShiftRight(num, 8) % 256, Int32Of(num) % 256)
  }

  /** `Math.max(0, Math.min(1, opacity))`. */
  function Clamp(opacity: real): (o: real)
    ensures 0.0 <= o <= 1.0
    ensures 0.0 <= opacity <= 1.0 ==> o == opacity
    ensures opacity < 0.0 ==> o == 0.0
    ensures opacity > 1.0 ==> o == 1.0
  {
    if opacity > 1.0 then 1.0 else if opacity < 0.0 then 0.0 else opacity
  }

  /**
   * `withOpacity(hex, opacity)`; `show` is JavaScript's rendering of a number
   * in a template literal.
   */
  function WithOpacity(hex: string, opacity: real, show: real -> string): string
  {
    var c := Channels(ParseHex(hex));
    "rgba(" + DecimalString(c.0) + ", " + DecimalString(c.1) + ", " + DecimalString(c.2) + ", " +
      show(Clamp(opacity)) + ")"
  }

  /** The value of `k` digits is below `radix^k`. */
  lemma {:induction false} ValueBelowPow(s: string, radix: nat)
    requires radix >= 1 && AllDigitsIn(s, radix)
    ensures ValueIn(s, radix) < Pow(radix, |s|)
    decreases |s|
  {
    if s != [] {
      var init := s[..|s| - 1];
      ValueBelowPow(init, radix);
      var v := ValueIn(init, radix);
      var p := Pow(radix, |init|);
      var d := DigitValue(s[|s| - 1]).value;
      assert ValueIn(s, radix) == v * radix + d;
      assert Pow(radix, |s|) == radix * p;
      ScaleBelow(v, p, d, radix);
    }
  }

  lemma ScaleBelow(v: nat, p: nat, d: nat, radix: nat)
    requires v < p && d < radix
    ensures v * radix + d < radix * p
  {
    assert v * radix + d < (v + 1) * radix;
    assert (v + 1) * radix <= p * radix;
  }

  /** "#" and six hexadecimal digits parse to their value, which fits in 24 bits. */
  lemma SixDigitHex(digits: string)
    requires |digits| == 6 && AllDigitsIn(digits, 16)
    ensures ParseHex("#" + digits) == Some(ValueIn(digits, 16))
    ensures ValueIn(digits, 16) < 0x100_0000
  {
    assert ReplaceFirst("#" + digits, '#') == digits;
    assert digits[1] != 'x' && digits[1] != 'X' by { assert IsDigitIn(digits[1], 16); }
    ParseIntOfDigits(digits, 16);
    ValueBelowPow(digits, 16);
    assert Pow(16, 6) == 0x100_0000;
  }

  /** The three channels of a 24-bit number recombine to it. */
  lemma ChannelsRecombine(n: int)
    requires 0 <= n < 0x100_0000
    ensures var c := Channels(Some(n)); c.0 * 65536 + c.1 * 256 + c.2 == n
    ensures Channels(Some(n)).0 == n / 65536
  {
    assert Int32Of(Some(n)) == n;
    var q := n / 256;
    assert ShiftRight(Some(n), 8) == q;
    assert ShiftRight(Some(n), 16) == n / 65536;
    SplitBytes(n);
  }

  /** Splitting a 24-bit number into its high, middle and low bytes. */
  lemma SplitBytes(n: int)
    requires 0 <= n < 0x100_0000
    ensures 0 <= n / 65536 < 256
    ensures n / 65536 == (n / 256) / 256
    ensures (n / 65536) * 65536 + ((n / 256) % 256) * 256 + n % 256 == n
  {
    var q := n / 256;
    assert n == q * 256 + n % 256;
    assert q == (q / 256) * 256 + q % 256;
    assert n == (q / 256) * 65536 + (q % 256) * 256 + n % 256;
  }

  /** Three channel values, put together, split back into themselves. */
  lemma ChannelsOfRgb(r: int, g: int, b: int)
    requires 0 <= r < 256 && 0 <= g < 256 && 0 <= b < 256
    ensures 0 <= r * 65536 + g * 256 + b < 0x100_0000
    ensures Channels(Some(r * 65536 + g * 256 + b)) == (r, g, b)
  {
    var n := r * 65536 + g * 256 + b;
    assert n / 256 == r * 256 + g;
    assert n % 256 == b;
    assert (r * 256 + g) / 256 == r && (r * 256 + g) % 256 == g;
    assert n / 65536 == r;
  }

  /**
   * For a six-digit colour the three numbers printed are its channels, each in
   * 0..255, together making up the colour's value; the opacity printed is the
   * clamped one.
   */
  lemma WithOpacityOfSixDigits(digits: string, opacity: real, show: real -> string)
    requires |digits| == 6 && AllDigitsIn(digits, 16)
    ensures var c := Channels(Some(ValueIn(digits, 16)));
      WithOpacity("#" + digits, opacity, show) ==
        "rgba(" + DecimalString(c.0) + ", " + DecimalString(c.1) + ", " + DecimalString(c.2) + ", " +
        show(Clamp(opacity)) + ")" &&
      c.0 * 65536 + c.1 * 256 + c.2 == ValueIn(digits, 16)
  {
    SixDigitHex(digits);
    ChannelsRecombine(ValueIn(digits, 16));
  }

  /** A string that does not parse gives black: `NaN` shifts and masks to 0. */
  lemma UnparsableIsBlack(hex: string, opacity: real, show: real -> string)
    requires ParseHex(hex).None?
    ensures Channels(ParseHex(hex)) == (0, 0, 0)
    ensures WithOpacity(hex, opacity, show) == "rgba(0, 0, 0, " + show(Clamp(opacity)) + ")"
  {
    assert DecimalString(0) == "0";
  }
}
