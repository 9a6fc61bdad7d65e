/**
 * The helpers of the posting-schedule screen
 * (app/screens/schedule/ScheduleScreen.tsx): the 12-hour rendering of an
 * "HH:MM" slot time, the weekday name of a slot, and the list updates behind
 * the toggle and delete buttons.
 */
module ScheduleScreen {
  import opened Wrappers
  import opened Strings
  import opened Numerals
  import opened Sequences

  datatype ScheduleSlot = ScheduleSlot(id: string, dayOfWeek: int, time: string, isActive: bool, description: string)

  /** JavaScript `a % b`: the remainder takes the sign of the dividend. */
  function JsRem(a: int, b: int): (r: int)
    requires b > 0
    ensures a >= 0 ==> 0 <= r < b && r == a % b
    ensures a < 0 ==> -b < r <= 0 && r == -((-a) % b)
  {
    if a >= 0 then a % b else -((-a) % b)
  }

  /** `hour % 12 || 12`; a `NaN` hour (`None`) shows as 12. */
  function Hour12(hour: Option<int>): (r: int)
    ensures hour.Some? && hour.value >= 0 ==> 1 <= r <= 12 && r % 12 == hour.value % 12
    ensures hour.None? ==> r == 12
  {
    if hour.None? || JsRem(hour.value, 12) == 0 then 12 else JsRem(hour.value, 12)
  }

  /** `hour >= 12 ? "PM" : "AM"`; `NaN >= 12` is false. */
  function Meridiem(hour: Option<int>): (r: string)
    ensures r == "PM" <==> hour.Some? && hour.value >= 12
    ensures r == "AM" || r == "PM"
  {
    if hour.Some? && hour.value >= 12 then "PM" else "AM"
  }

  /**
   * `formatTime(time)`: the part before the first ':' read as a decimal hour,
   * the part after it (JavaScript prints a missing one as "undefined") passed
   * through.
   */
  function FormatTime(time: string): string
  {
    var parts := JsSplit(time, ':');
    var hour := JsParseInt(parts[0], 10);
    var minutes := if |parts| >= 2 then parts[1] else "undefined";
    DecimalString(Hour12(hour)) + ":" + minutes + " " + Meridiem(hour)
  }

  /**
   * For an "HH:MM" time whose hour is digits, the output is the 12-hour value,
   * the minutes unchanged, and AM exactly when the hour is below 12.
   */
  lemma FormatClockTime(hours: string, minutes: string)
    requires hours != [] && AllDigitsIn(hours, 10) && ':' !in minutes
    ensures var h := ValueIn(hours, 10);
      FormatTime(hours + ":" + minutes) ==
        DecimalString(Hour12(Some(h))) + ":" + minutes + " " + (if h < 12 then "AM" else "PM")
  {
    assert DigitValue(':') == None;
    assert forall i :: 0 <= i < |hours| ==> hours[i] != ':';
    SplitAppend(hours, ':', minutes);
    SplitWithoutSeparator(minutes, ':');
    assert hours + ":" + minutes == hours + [':'] + minutes;
    ParseIntOfDigits(hours, 10);
  }

  /** Midnight is 12 AM, noon 12 PM and 13 o'clock 1 PM; hours 0 to 23 map into 1 to 12. */
  lemma TwelveHourClock(hour: int)
    requires 0 <= hour <= 23
    ensures 1 <= Hour12(Some(hour)) <= 12
    ensures hour == 0 ==> Hour12(Some(hour)) == 12
    ensures hour == 12 ==> Hour12(Some(hour)) == 12
    ensures hour == 13 ==> Hour12(Some(hour)) == 1
    ensures 1 <= hour <= 12 ==> Hour12(Some(hour)) == hour
    ensures 13 <= hour ==> Hour12(Some(hour)) == hour - 12
  {
  }

  /** Two-digit hour `d1 d2`: its value, for the sample times below. */
  lemma TwoDigitHour(d1: char, d2: char)
    requires '0' <= d1 <= '9' && '0' <= d2 <= '9'
    ensures AllDigitsIn([d1, d2], 10)
    ensures ValueIn([d1, d2], 10) == (d1 as int - '0' as int) * 10 + (d2 as int - '0' as int)
  {
    assert [d1, d2][..1] == [d1];
    assert [d1][..0] == [];
    assert ValueIn([d1], 10) == DigitValue(d1).value;
    assert DigitValue(d1).value == d1 as int - '0' as int;
    assert DigitValue(d2).value == d2 as int - '0' as int;
  }

  /**
   * A two-digit "HH:MM" time: the hour `h` its digits spell, shown on the
   * 12-hour clock with its meridiem.
   */
  lemma ClockSample(d1: char, d2: char, minutes: string, h: int)
    requires '0' <= d1 <= '9' && '0' <= d2 <= '9' && ':' !in minutes
    requires h == (d1 as int - '0' as int) * 10 + (d2 as int - '0' as int)
    ensures FormatTime([d1, d2] + ":" + minutes) == DecimalString(Hour12(Some(h))) + ":" + minutes + " " + Meridiem(Some(h))
  {
    TwoDigitHour(d1, d2);
    FormatClockTime([d1, d2], minutes);
  }

  /** A sample time, given its digits, its hour and how that hour is shown. */
  lemma SampleTime(time: string, d1: char, d2: char, minutes: string, h: int, shown: string, meridiem: string, out: string)
    requires '0' <= d1 <= '9' && '0' <= d2 <= '9' && ':' !in minutes
    requires h == (d1 as int - '0' as int) * 10 + (d2 as int - '0' as int)
    requires time == [d1, d2] + ":" + minutes
    requires DecimalString(Hour12(Some(h))) == shown && Meridiem(Some(h)) == meridiem
    requires out == shown + ":" + minutes + " " + meridiem
    ensures FormatTime(time) == out
  {
    ClockSample(d1, d2, minutes, h);
  }

  /** The screen's sample slot times, and midnight. */
  lemma SampleMorning()
    ensures FormatTime("09:00") == "9:00 AM"
  {
    SampleHoursShown();
    SampleTime("09:00", '0', '9', "00", 9, "9", "AM", "9:00 AM");
  }

  lemma SampleNoon()
    ensures FormatTime("12:30") == "12:30 PM"
  {
    SampleHoursShown();
    SampleTime("12:30", '1', '2', "30", 12, "12", "PM", "12:30 PM");
  }

  lemma SampleEvening()
    ensures FormatTime("17:00") == "5:00 PM"
  {
    SampleHoursShown();
    SampleTime("17:00", '1', '7', "00", 17, "5", "PM", "5:00 PM");
  }

  lemma SampleMidnight()
    ensures FormatTime("00:15") == "12:15 AM"
  {
    SampleHoursShown();
    SampleTime("00:15", '0', '0', "15", 0, "12", "AM", "12:15 AM");
  }

  /** How the sample hours are shown. */
  lemma SampleHoursShown()
    ensures DecimalString(Hour12(Some(9))) == "9" && Meridiem(Some(9)) == "AM"
    ensures DecimalString(Hour12(Some(12))) == "12" && Meridiem(Some(12)) == "PM"
    ensures DecimalString(Hour12(Some(17))) == "5" && Meridiem(Some(17)) == "PM"
    ensures DecimalString(Hour12(Some(0))) == "12" && Meridiem(Some(0)) == "AM"
  {
    TwelveShown();
    assert DecimalString(9) == "9" && DecimalString(5) == "5";
  }

  /** A time with no leading digits reads as `NaN`: "12:… AM". */
  lemma FormatTimeWithoutHour(time: string)
    requires JsParseInt(JsSplit(time, ':')[0], 10).None?
    ensures var parts := JsSplit(time, ':');
      FormatTime(time) == "12:" + (if |parts| >= 2 then parts[1] else "undefined") + " AM"
  {
    TwelveShown();
  }

  lemma TwelveShown()
    ensures DecimalString(12) == "12"
  {
    assert Digits(12, 10) == Digits(1, 10) + [DigitChar(2)];
  }

  const DayNames: seq<string> := ["Sunday", "Monday", "Tuesday", "Wednesday", "Thursday", "Friday", "Saturday"]

  /** `getDayName(dayOfWeek)`: `days[dayOfWeek]`, `undefined` (`None`) outside 0..6. */
  function DayName(dayOfWeek: int): (r: Option<string>)
    ensures r.Some? <==> 0 <= dayOfWeek < 7
  {
    if 0 <= dayOfWeek < |DayNames| then Some(DayNames[dayOfWeek]) else None
  }

  /** 0 is Sunday and 6 is Saturday, and the seven days have seven different names. */
  lemma DayNamesInWeekOrder()
    ensures DayName(0) == Some("Sunday") && DayName(1) == Some("Monday") && DayName(6) == Some("Saturday")
    ensures forall i, j :: 0 <= i < j < 7 ==> DayName(i) != DayName(j)
  {
  }

  /** `handleToggleActive(id)`: flip `isActive` on the slots with that id. */
  function ToggledActive(slots: seq<ScheduleSlot>, id: string): (r: seq<ScheduleSlot>)
    ensures |r| == |slots|
    ensures forall i :: 0 <= i < |slots| ==>
      r[i].isActive == (slots[i].isActive != (slots[i].id == id)) &&
      r[i] == slots[i].(isActive := r[i].isActive)
  {
    seq(|slots|, i requires 0 <= i < |slots| =>
      if slots[i].id == id then slots[i].(isActive := !slots[i].isActive) else slots[i])
  }

  /** Toggling the same id twice gives the list back. */
  lemma ToggleActiveTwice(slots: seq<ScheduleSlot>, id: string)
    ensures ToggledActive(ToggledActive(slots, id), id) == slots
  {
  }

  /** `handleDeleteSlot(id)`, once confirmed: the slots with other ids. */
  function WithoutSlot(slots: seq<ScheduleSlot>, id: string): (r: seq<ScheduleSlot>)
    ensures forall s :: s in r <==> s in slots && s.id != id
  {
    Filter(slots, (s: ScheduleSlot) => s.id != id)
  }

  /** Deleting keeps the other slots in their order, and a second delete changes nothing. */
  lemma DeleteKeepsOrder(slots: seq<ScheduleSlot>, id: string)
    ensures IsSubsequence(WithoutSlot(slots, id), slots)
    ensures WithoutSlot(WithoutSlot(slots, id), id) == WithoutSlot(slots, id)
  {
    var keep := (s: ScheduleSlot) => s.id != id;
    FilterIsSubsequence(slots, keep);
    var once := WithoutSlot(slots, id);
    assert forall i :: 0 <= i < |once| ==> keep(once[i]) by {
      forall i | 0 <= i < |once| ensures keep(once[i]) {
        assert once[i] in once;
      }
    }
    FilterKeepsAll(once, keep);
  }
}
