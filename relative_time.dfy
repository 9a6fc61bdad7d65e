/**
 * The age label of a news card (`formatRelativeTime` in
 * app/src/components/feature/news/NewsCard.tsx): a ten-character numeric
 * value is epoch seconds, anything else goes to the date parser; the age is
 * shown in whole minutes, hours, days or weeks.
 */
module RelativeTime {
  import opened Wrappers
  import opened Numerals

  const Minute := 60
  const Hour := 60 * Minute
  const Day := 24 * Hour
  const Week := 7 * Day

  /**
   * `parseInt(s)` without a radix: hexadecimal after an optional sign and a
   * `0x`/`0X` prefix, decimal otherwise.
   */
  function ParseIntAnyRadix(s: string): (r: Option<int>)
  {
    var t := SkipJsSpaces(s);
    var u := if t != [] && (t[0] == '-' || t[0] == '+') then t[1..] else t;
    if |u| >= 2 && u[0] == '0' && (u[1] == 'x' || u[1] == 'X') then JsParseInt(s, 16) else JsParseInt(s, 10)
  }

  /**
   * The publication instant in milliseconds, `None` for an invalid date.
   * `numeric` is `!isNaN(Number(dateValue))`, `text` is `String(dateValue)`,
   * and `parseDate` is `new Date(text).getTime()`.
   */
  function PublishedMs(text: string, numeric: bool, parseDate: string -> Option<int>): Option<int>
  {
    if numeric && |text| == 10 then
      match ParseIntAnyRadix(text)
      case Some(seconds) => Some(seconds * 1000)
      case None => None
    else parseDate(text)
  }

  /** The label for an age of `diff` whole seconds (negative for a future date). */
  function Label(diff: int): string
  {
    if diff < Minute then "just now"
    else if diff < Hour then DecimalString(diff / Minute) + "m ago"
    else if diff < Day then DecimalString(diff / Hour) + "h ago"
    else if diff < Week then DecimalString(diff / Day) + "d ago"
    else DecimalString(diff / Week) + "w ago"
  }

  /** `formatRelativeTime(dateValue)` at the instant `now` (milliseconds). */
  function FormatRelativeTime(text: string, numeric: bool, now: int, parseDate: string -> Option<int>): (r: string)
    ensures PublishedMs(text, numeric, parseDate).None? ==> r == "NaNw ago"
  {
    match PublishedMs(text, numeric, parseDate)
    case None => "NaNw ago"
    case Some(published) => Label((now - published) / 1000)
  }

  /**
   * Each bucket prints the number of whole units elapsed: at least one and
   * fewer than the next unit holds.
   */
  lemma LabelUnits(diff: int)
    ensures diff < Minute ==> Label(diff) == "just now"
    ensures Minute <= diff < Hour ==> var n := diff / Minute;
      1 <= n <= 59 && n * Minute <= diff < (n + 1) * Minute && Label(diff) == DecimalString(n) + "m ago"
    ensures Hour <= diff < Day ==> var n := diff / Hour;
      1 <= n <= 23 && n * Hour <= diff < (n + 1) * Hour && Label(diff) == DecimalString(n) + "h ago"
    ensures Day <= diff < Week ==> var n := diff / Day;
      1 <= n <= 6 && n * Day <= diff < (n + 1) * Day && Label(diff) == DecimalString(n) + "d ago"
    ensures Week <= diff ==> var n := diff / Week;
      1 <= n && n * Week <= diff < (n + 1) * Week && Label(diff) == DecimalString(n) + "w ago"
  {
  }

  /** A date in the future, or less than a minute old, is "just now". */
  lemma RecentIsJustNow(published: int, now: int, parseDate: string -> Option<int>, text: string, numeric: bool)
    requires PublishedMs(text, numeric, parseDate) == Some(published) && now - published < 60000
    ensures FormatRelativeTime(text, numeric, now, parseDate) == "just now"
  {
  }

  /** Ten decimal digits are read as epoch seconds, whatever the date parser would say. */
  lemma EpochSeconds(text: string, parseDate: string -> Option<int>)
    requires |text| == 10 && AllDigitsIn(text, 10)
    ensures PublishedMs(text, true, parseDate) == Some(ValueIn(text, 10) * 1000)
  {
    assert !(text[0] == '-' || text[0] == '+') by { assert IsDigitIn(text[0], 10); }
    assert !IsJsSpace(text[0]) by { assert IsDigitIn(text[0], 10); }
    assert text[1] != 'x' && text[1] != 'X' by { assert IsDigitIn(text[1], 10); }
    ParseIntOfDigits(text, 10);
  }

  /** A value of another length, or a non-numeric one, goes to the date parser. */
  lemma OtherInputsAreParsed(text: string, numeric: bool, parseDate: string -> Option<int>)
    requires !numeric || |text| != 10
    ensures PublishedMs(text, numeric, parseDate) == parseDate(text)
  {
  }
}
