/**
 * The colour arithmetic of the theme builder (app/src/styles/buildTheme.ts):
 * the hover and pressed shades of a base colour, lighter in dark mode and
 * darker in light mode, with every channel kept within 0..255, and the
 * neutral scale, which dark mode runs backwards.
 */
module Theme {
  import opened Wrappers
  import opened Numerals
  import opened ColorUtils

  function Min(a: int, b: int): int { if a <= b then a else b }
  function Max(a: int, b: int): int { if a >= b then a else b }

  /** `x << k` for k = 8 or 16: the product wrapped to 32 bits. */
  function ShiftLeft(x: int, k: nat): int
    requires k == 8 || k == 16
  {
    ToInt32(x * (if k == 8 then 256 else 65536))
  }

  /** The channels `adjustColor` starts from; red is `num >> 16` without a mask. */
  function BaseChannels(num: Option<int>): (int, int, int)
  {
    (ShiftRight(num, 16), ShiftRight(num, 8) % 256, Int32Of(num) % 256)
  }

  /** Dark mode adds `amt` to each channel, stopping at 255; light mode subtracts it, stopping at 0. */
  function Shifted(c: (int, int, int), amt: nat, isDark: bool): (int, int, int)
  {
    if isDark then (Min(255, c.0 + amt), Min(255, c.1 + amt), Min(255, c.2 + amt))
    else (Max(0, c.0 - amt), Max(0, c.1 - amt), Max(0, c.2 - amt))
  }

  /**
   * `adjustColor(color, amount)` inside `createInteractiveStates`, with the
   * rounded `2.55 * amount` given as `amt`.
   */
  function AdjustColor(color: string, amt: nat, isDark: bool): string
  {
    var c := Shifted(BaseChannels(ParseHex(color)), amt, isDark);
    "#" + PadStart(HexString(ShiftLeft(c.0, 16) + ShiftLeft(c.1, 8) + c.2), 6, '0')
  }

  /**
   * For a six-digit colour the result is "#" and six hexadecimal digits, and
   * reading it back gives each channel of the input moved by `amt` and kept
   * within 0..255.
   */
  lemma AdjustedChannels(digits: string, amt: nat, isDark: bool)
    requires |digits| == 6 && AllDigitsIn(digits, 16)
    ensures var out := AdjustColor("#" + digits, amt, isDark);
      |out| == 7 && out[0] == '#' && AllDigitsIn(out[1..], 16) &&
      Channels(ParseHex(out)) == Shifted(Channels(Some(ValueIn(digits, 16))), amt, isDark)
  {
    var c := Shifted(Channels(Some(ValueIn(digits, 16))), amt, isDark);
    SixDigitBase(digits);
    PackedHexReadsBack(AdjustColor("#" + digits, amt, isDark), c);
  }

  /** A six-digit colour's starting channels are its masked channels: red needs no mask. */
  lemma SixDigitBase(digits: string)
    requires |digits| == 6 && AllDigitsIn(digits, 16)
    ensures BaseChannels(ParseHex("#" + digits)) == Channels(Some(ValueIn(digits, 16)))
  {
    SixDigitHex(digits);
    ChannelsRecombine(ValueIn(digits, 16));
  }

  /** `(r << 16) + (g << 8) + b` for channels in 0..255: no 32-bit wrap happens. */
  function Packed(c: (int, int, int)): (m: int)
    requires 0 <= c.0 < 256 && 0 <= c.1 < 256 && 0 <= c.2 < 256
    ensures m == c.0 * 65536 + c.1 * 256 + c.2
  {
    ShiftLeft(c.0, 16) + ShiftLeft(c.1, 8) + c.2
  }

  /** Packed channels, written as six hex digits after "#", parse back to the same channels. */
  lemma PackedHexReadsBack(out: string, c: (int, int, int))
    requires 0 <= c.0 < 256 && 0 <= c.1 < 256 && 0 <= c.2 < 256
    requires out == "#" + PadStart(HexString(Packed(c)), 6, '0')
    ensures |out| == 7 && out[0] == '#' && AllDigitsIn(out[1..], 16) && Channels(ParseHex(out)) == c
  {
    ChannelsOfRgb(c.0, c.1, c.2);
    var m := Packed(c);
    assert Pow(16, 6) == 0x100_0000;
    PaddedHexValue(m, 6);
    var hex := PadStart(HexString(m), 6, '0');
    assert out[1..] == hex;
    SixDigitHex(hex);
  }

  /**
   * A larger amount moves every channel at least as far: in light mode
   * pressed <= hover <= base, in dark mode base <= hover <= pressed.
   */
  lemma LargerAmountMovesFurther(c: (int, int, int), hoverAmt: nat, pressedAmt: nat)
    requires 0 <= c.0 < 256 && 0 <= c.1 < 256 && 0 <= c.2 < 256
    requires hoverAmt <= pressedAmt
    ensures var hover := Shifted(c, hoverAmt, false); var pressed := Shifted(c, pressedAmt, false);
      pressed.0 <= hover.0 <= c.0 && pressed.1 <= hover.1 <= c.1 && pressed.2 <= hover.2 <= c.2
    ensures var hover := Shifted(c, hoverAmt, true); var pressed := Shifted(c, pressedAmt, true);
      c.0 <= hover.0 <= pressed.0 && c.1 <= hover.1 <= pressed.1 && c.2 <= hover.2 <= pressed.2
  {
  }

  /** The interactive colours derived from a base colour; `disabled` is a fixed table colour. */
  datatype InteractiveStates = InteractiveStates(default: string, hover: string, pressed: string, selected: string)

  /**
   * `createInteractiveStates(baseColor, isDark)`: hover and pressed are the
   * adjustments by the amounts for 10 and 20 percent, selected is the base at
   * 0.2 (dark) or 0.1 (light) opacity.
   */
  function CreateInteractiveStates(baseColor: string, isDark: bool, hoverAmt: nat, pressedAmt: nat,
                                   show: real -> string): (s: InteractiveStates)
    ensures s.default == baseColor
  {
    InteractiveStates(baseColor,
                      AdjustColor(baseColor, hoverAmt, isDark),
                      AdjustColor(baseColor, pressedAmt, isDark),
                      WithOpacity(baseColor, if isDark then 0.2 else 0.1, show))
  }

  /** For a six-digit base, pressed lies at least as far from the base as hover, channel by channel. */
  lemma PressedBeyondHover(digits: string, isDark: bool, hoverAmt: nat, pressedAmt: nat, show: real -> string)
    requires |digits| == 6 && AllDigitsIn(digits, 16) && hoverAmt <= pressedAmt
    ensures var s := CreateInteractiveStates("#" + digits, isDark, hoverAmt, pressedAmt, show);
      var base := Channels(ParseHex("#" + digits));
      var hover := Channels(ParseHex(s.hover));
      var pressed := Channels(ParseHex(s.pressed));
      if isDark then
        base.0 <= hover.0 <= pressed.0 && base.1 <= hover.1 <= pressed.1 && base.2 <= hover.2 <= pressed.2
      else
        pressed.0 <= hover.0 <= base.0 && pressed.1 <= hover.1 <= base.1 && pressed.2 <= hover.2 <= base.2
  {
    SixDigitHex(digits);
    AdjustedChannels(digits, hoverAmt, isDark);
    AdjustedChannels(digits, pressedAmt, isDark);
    LargerAmountMovesFurther(Channels(Some(ValueIn(digits, 16))), hoverAmt, pressedAmt);
  }

  // ---------------------------------------------------------------------------
  // The neutral scale

  /** The steps of a colour scale, lightest first. */
  const ScaleSteps: seq<nat> := [50, 100, 200, 300, 400, 500, 600, 700, 800, 900]

  /** A colour scale: one colour per step of `ScaleSteps`. */
  type Scale = s: seq<string> | |s| == 10 witness ["", "", "", "", "", "", "", "", "", ""]

  function Reversed<T>(s: seq<T>): (r: seq<T>)
    ensures |r| == |s|
    ensures forall i :: 0 <= i < |s| ==> r[i] == s[|s| - 1 - i]
  {
    if s == [] then [] else Reversed(s[1..]) + [s[0]]
  }

  lemma ReversedTwice<T>(s: seq<T>)
    ensures Reversed(Reversed(s)) == s
  {
  }

  /** The dark-mode scale: step 50 takes 900's colour, 100 takes 800's, and so on. */
  function DarkNeutralScale(neutral: Scale): Scale
  {
    [neutral[9], neutral[8], neutral[7], neutral[6], neutral[5],
     neutral[4], neutral[3], neutral[2], neutral[1], neutral[0]]
  }

  /** The dark scale is the reversal of the neutral one, so applying it twice restores it. */
  lemma DarkScaleIsReversal(neutral: Scale)
    ensures DarkNeutralScale(neutral) == Reversed(neutral)
    ensures DarkNeutralScale(DarkNeutralScale(neutral)) == neutral
  {
  }

  datatype ThemeMode = Light | Dark | Premium

  /** `neutralScale`: the premium palette in premium mode, the reversed scale in dark mode. */
  function NeutralScale(mode: ThemeMode, neutral: Scale, premiumPrimary: Scale): (r: Scale)
    ensures mode == Premium ==> r == premiumPrimary
    ensures mode == Dark ==> r == Reversed(neutral)
    ensures mode == Light ==> r == neutral
  {
    if mode == Premium then premiumPrimary else if mode == Dark then DarkNeutralScale(neutral) else neutral
  }
}
