/**
 * The string side of the date helpers: `YYYY-MM-DD` formatting of calendar fields, the
 * reading of such a string back into `Date` constructor arguments, the validity check, and
 * the calendar fields of "now" in Korea Standard Time (UTC+9).
 */
module Dates {
  import opened Wrappers
  import opened Strings

  /** The calendar fields a `Date` reports: full year, 0-based month, day of the month. */
  datatype DateFields = DateFields(year: int, monthIndex: int, day: int)

  /** `String(n).padStart(2, '0')`. */
  function TwoDigits(n: int): string {
    PadStart(DecimalString(n), 2, '0')
  }

  /** `formatDate` (and the tail of `getTodayKST`): `${year}-${month}-${day}` with the 1-based
      month and the day padded to two digits. */
  function FormatDate(d: DateFields): (text: string)
    ensures 0 <= d.year && 0 <= d.monthIndex <= 98 && 0 <= d.day <= 99 ==>
      var parts := Split(text, '-');
      && |parts| == 3
      && AllDigits(parts[0]) && DigitsValue(parts[0]) == d.year
      && |parts[1]| == 2 && AllDigits(parts[1]) && DigitsValue(parts[1]) == d.monthIndex + 1
      && |parts[2]| == 2 && AllDigits(parts[2]) && DigitsValue(parts[2]) == d.day
  {
    var y, m, dd := DecimalString(d.year), TwoDigits(d.monthIndex + 1), TwoDigits(d.day);
    if 0 <= d.year && 0 <= d.monthIndex <= 98 && 0 <= d.day <= 99 then
      DigitsValueOfNatString(d.year);
      TwoDigitsValue(d.monthIndex + 1);
      TwoDigitsValue(d.day);
      DigitsHaveNoDash(y);
      DigitsHaveNoDash(m);
      DigitsHaveNoDash(dd);
      SplitThreeGroups(y, m, dd);
      y + "-" + m + "-" + dd
    else
      y + "-" + m + "-" + dd
  }

  /** `/^\d{4}-\d{2}-\d{2}$/.test(s)`. */
  predicate DateShape(s: string) {
    && |s| == 10
    && AllDigits(s[..4]) && s[4] == '-' && AllDigits(s[5..7]) && s[7] == '-' && AllDigits(s[8..])
  }

  /** `parseDate`: `split('-').map(Number)`, then `new Date(year, month - 1, day)`. The result
      is the constructor's arguments; `None` stands for a NaN argument: a missing piece, or
      one of the first three pieces that is not a number. */
  function ParseDate(s: string): (r: Option<DateFields>)
    ensures r.Some? ==> |Split(s, '-')| >= 3
  {
    var parts := Split(s, '-');
    if |parts| < 3 then None
    else
      var year, month, day := ParseNumber(parts[0]), ParseNumber(parts[1]), ParseNumber(parts[2]);
      if year.Some? && month.Some? && day.Some? then
        Some(DateFields(year.value, month.value as int - 1, day.value))
      else
        None
  }

  /** `isValidDateString`: the regular expression, then "the parsed date is not NaN". The
      regular expression is the only effective check: three digit groups always make a
      (possibly rolled-over) date, so exactly the strings of the shape are accepted. */
  function IsValidDateString(s: string): (valid: bool)
    ensures valid <==> DateShape(s)
  {
    if DateShape(s) then
      ShapeSplits(s);
      ParseDate(s).Some?
    else
      false
  }

  lemma DigitsHaveNoDash(x: string)
    requires AllDigits(x)
    ensures '-' !in x
  {
  }

  /** Three dash-free groups joined by dashes split back into the groups. */
  lemma SplitThreeGroups(a: string, b: string, c: string)
    requires '-' !in a && '-' !in b && '-' !in c
    ensures Split(a + "-" + b + "-" + c, '-') == [a, b, c]
  {
    assert a + "-" + b + "-" + c == a + "-" + (b + "-" + c);
    SplitAtFirst(a, '-', b + "-" + c);
    SplitAtFirst(b, '-', c);
  }

  /** Groups of four, two and two digits joined by dashes have the shape. */
  lemma GroupsHaveShape(a: string, b: string, c: string)
    requires |a| == 4 && |b| == 2 && |c| == 2 && AllDigits(a) && AllDigits(b) && AllDigits(c)
    ensures DateShape(a + "-" + b + "-" + c)
  {
    var s := a + "-" + b + "-" + c;
    assert s[..4] == a && s[5..7] == b && s[8..] == c;
  }

  /** A string of the right shape splits into its three digit groups. */
  lemma ShapeSplits(s: string)
    requires DateShape(s)
    ensures Split(s, '-') == [s[..4], s[5..7], s[8..]]
  {
    var a, b, c := s[..4], s[5..7], s[8..];
    DigitsHaveNoDash(a);
    DigitsHaveNoDash(b);
    DigitsHaveNoDash(c);
    assert s == a + "-" + b + "-" + c;
    SplitThreeGroups(a, b, c);
  }

  /** Month 13 and day 40 pass the check. */
  lemma OutOfRangeFieldsAccepted()
    ensures IsValidDateString("2024-13-40")
  {
    var s := "2024-13-40";
    assert DateShape(s);
  }

  /** `n` in two digits reads back as `n`. */
  lemma TwoDigitsValue(n: nat)
    requires n < 100
    ensures |TwoDigits(n)| == 2 && AllDigits(TwoDigits(n)) && DigitsValue(TwoDigits(n)) == n
  {
    NatStringLength(n);
    DigitsValueOfNatString(n);
    if n < 10 {
      assert TwoDigits(n) == "0" + NatString(n);
      LeadingZero(NatString(n));
    }
  }

  /** The output of `formatDate` for a four-digit year and in-range month and day has the
      `YYYY-MM-DD` shape, so `isValidDateString` accepts it. */
  lemma FormatDateIsValid(d: DateFields)
    requires 1000 <= d.year <= 9999 && 0 <= d.monthIndex <= 11 && 1 <= d.day <= 31
    ensures DateShape(FormatDate(d)) && IsValidDateString(FormatDate(d))
  {
    NatStringLength(d.year);
    TwoDigitsValue(d.monthIndex + 1);
    TwoDigitsValue(d.day);
    GroupsHaveShape(NatString(d.year), TwoDigits(d.monthIndex + 1), TwoDigits(d.day));
  }

  /** Reading back the text `formatDate` writes gives the same fields, for a non-negative
      year and a month and day that fit in two digits. */
  lemma ParseFormatDate(d: DateFields)
    requires 0 <= d.year && 0 <= d.monthIndex <= 98 && 0 <= d.day <= 99
    ensures ParseDate(FormatDate(d)) == Some(d)
  {
    ParseDigitGroups(FormatDate(d));
  }

  /** A text that splits on `-` into three digit groups parses to their values, the month
      less one. */
  lemma ParseDigitGroups(text: string)
    requires var parts := Split(text, '-');
      |parts| == 3 && AllDigits(parts[0]) && AllDigits(parts[1]) && AllDigits(parts[2])
    ensures var parts := Split(text, '-');
      ParseDate(text) == Some(DateFields(DigitsValue(parts[0]), DigitsValue(parts[1]) - 1, DigitsValue(parts[2])))
  {
    var parts := Split(text, '-');
    assert parts == [parts[0], parts[1], parts[2]];
    ParseSplitGroups(text, parts[0], parts[1], parts[2]);
  }

  /** Three digit groups joined by dashes read back as their values, the month less one. */
  lemma ParseGroups(a: string, b: string, c: string)
    requires AllDigits(a) && AllDigits(b) && AllDigits(c)
    ensures ParseDate(a + "-" + b + "-" + c) == Some(DateFields(DigitsValue(a), DigitsValue(b) - 1, DigitsValue(c)))
  {
    DigitsHaveNoDash(a);
    DigitsHaveNoDash(b);
    DigitsHaveNoDash(c);
    SplitThreeGroups(a, b, c);
    ParseSplitGroups(a + "-" + b + "-" + c, a, b, c);
  }

  lemma ParseSplitGroups(s: string, a: string, b: string, c: string)
    requires AllDigits(a) && AllDigits(b) && AllDigits(c)
    requires Split(s, '-') == [a, b, c]
    ensures ParseDate(s) == Some(DateFields(DigitsValue(a), DigitsValue(b) - 1, DigitsValue(c)))
  {
  }

  // ---------------------------------------------------------------------------
  // Today in Korea Standard Time
  // ---------------------------------------------------------------------------

  const MsPerDay: int := 86400000

  /** `9 * 60 * 60 * 1000`: Korea Standard Time is UTC+9. */
  const KstOffsetMs: int := 32400000

  function Min(a: int, b: int): int { if a <= b then a else b }

  /** The proleptic Gregorian date of the day `z` days after 1970-01-01, as
      `getUTCFullYear`, `getUTCMonth` and `getUTCDate` report it. Days are counted in
      400-year eras starting on 1 March, split into centuries, four-year cycles and years. */
  function CivilFromDays(z: int): (d: DateFields)
    ensures 0 <= d.monthIndex <= 11 && 1 <= d.day <= 31
  {
    var shifted := z + 719468;
    var era := shifted / 146097;
    var doe := shifted - era * 146097;
    var century := Min(doe / 36524, 3);
    var doc := doe - 36524 * century;
    var cycle := doc / 1461;
    var doy4 := doc - 1461 * cycle;
    var yearInCycle := Min(doy4 / 365, 3);
    var doy := doy4 - 365 * yearInCycle;
    var yoe := 100 * century + 4 * cycle + yearInCycle;
    DayOfYearSplit(doy);
    var mp := (5 * doy + 2) / 153;
    var day := doy - (153 * mp + 2) / 5 + 1;
    var month := if mp < 10 then mp + 3 else mp - 9;
    DateFields(yoe + 400 * era + (if month <= 2 then 1 else 0), month - 1, day)
  }

  /** The day of a March-based year splits into a month (0 = March) and a day of 1 to 31. */
  lemma DayOfYearSplit(doy: int)
    requires 0 <= doy <= 365
    ensures var mp := (5 * doy + 2) / 153;
      0 <= mp <= 11 && 1 <= doy - (153 * mp + 2) / 5 + 1 <= 31
  {
    var mp := (5 * doy + 2) / 153;
    assert 153 * mp <= 5 * doy + 2 < 153 * mp + 153;
    assert 0 <= mp <= 11;
    if mp == 0 { assert (153 * mp + 2) / 5 == 0; }
    else if mp == 1 { assert (153 * mp + 2) / 5 == 31; }
    else if mp == 2 { assert (153 * mp + 2) / 5 == 61; }
    else if mp == 3 { assert (153 * mp + 2) / 5 == 92; }
    else if mp == 4 { assert (153 * mp + 2) / 5 == 122; }
    else if mp == 5 { assert (153 * mp + 2) / 5 == 153; }
    else if mp == 6 { assert (153 * mp + 2) / 5 == 184; }
    else if mp == 7 { assert (153 * mp + 2) / 5 == 214; }
    else if mp == 8 { assert (153 * mp + 2) / 5 == 245; }
    else if mp == 9 { assert (153 * mp + 2) / 5 == 275; }
    else if mp == 10 { assert (153 * mp + 2) / 5 == 306; }
    else { assert (153 * mp + 2) / 5 == 337; }
  }

  /** Euclidean division by the day length drops exactly the time of day. */
  lemma DayOf(ms: int)
    ensures (ms - ms % MsPerDay) / MsPerDay == ms / MsPerDay
  {
    var q := ms / MsPerDay;
    assert ms - ms % MsPerDay == q * MsPerDay;
  }

  /** The UTC calendar fields of the instant `ms` milliseconds after the epoch. */
  function UtcFields(ms: int): (d: DateFields)
    ensures 0 <= d.monthIndex <= 11 && 1 <= d.day <= 31
    ensures d == CivilFromDays((ms - ms % MsPerDay) / MsPerDay)
  {
    DayOf(ms);
    CivilFromDays(ms / MsPerDay)
  }

  /** `getTodayKST`: the UTC fields of now plus nine hours, formatted as `formatDate` does.
      From a year 0 on, the text reads back through `parseDate` as the Korean calendar day. */
  function GetTodayKST(nowMs: int): (today: string)
    ensures var f := UtcFields(nowMs + KstOffsetMs);
      && 0 <= f.monthIndex <= 11 && 1 <= f.day <= 31
      && (0 <= f.year ==> ParseDate(today) == Some(f))
  {
    var f := UtcFields(nowMs + KstOffsetMs);
    if 0 <= f.year then ParseFormatDate(f); FormatDate(f)
    else FormatDate(f)
  }

  /** In a four-digit year, today's text always passes `isValidDateString`. */
  lemma TodayIsValid(nowMs: int)
    requires 1000 <= UtcFields(nowMs + KstOffsetMs).year <= 9999
    ensures IsValidDateString(GetTodayKST(nowMs))
  {
    FormatDateIsValid(UtcFields(nowMs + KstOffsetMs));
  }

  /** The epoch is 1 January 1970 in both UTC and Korea. */
  lemma EpochInKorea()
    ensures UtcFields(0) == DateFields(1970, 0, 1)
    ensures UtcFields(KstOffsetMs) == DateFields(1970, 0, 1)
  {
    assert KstOffsetMs / MsPerDay == 0;
    assert 719468 / 146097 == 4;
    assert 135080 / 36524 == 3;
    assert 25508 / 1461 == 17;
    assert 671 / 365 == 1;
    assert (5 * 306 + 2) / 153 == 10;
    assert (153 * 10 + 2) / 5 == 306;
  }

  /** 2023-12-31T15:00:00Z is still New Year's Eve in UTC but already New Year's Day in
      Korea. */
  lemma NewYearInKorea()
    ensures UtcFields(1704034800000) == DateFields(2023, 11, 31)
    ensures UtcFields(1704034800000 + KstOffsetMs) == DateFields(2024, 0, 1)
  {
    assert 1704034800000 / MsPerDay == 19722;
    assert (1704034800000 + KstOffsetMs) / MsPerDay == 19723;
    assert 739190 / 146097 == 5 && 739191 / 146097 == 5;
    assert 8705 / 36524 == 0 && 8706 / 36524 == 0;
    assert 8705 / 1461 == 5 && 8706 / 1461 == 5;
    assert 1400 / 365 == 3 && 1401 / 365 == 3;
    assert (5 * 305 + 2) / 153 == 9 && (153 * 9 + 2) / 5 == 275;
    assert (5 * 306 + 2) / 153 == 10 && (153 * 10 + 2) / 5 == 306;
  }
}
