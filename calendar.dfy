/** The calendar behind the period keys of `aggregateByPeriod`: the date of a
    Unix time stamp in UTC, Go's layouts `2006-01-02`, `2006-W01` and
    `2006-01`, and the Monday-aligned weeks the weekly layout was evidently
    meant to print. A layout prints fixed-width fields, so a key is modelled
    by the fields it prints. */
module Calendar {
  import opened Common

  /** Days since 1970-01-01 of the instant `t` (Unix seconds); Dafny's
      division by a positive divisor rounds down, as the calendar needs. */
  function DayNumber(t: int): int {
    t / SecondsPerDay
  }

  datatype Date = Date(year: int, month: int, day: int)

  /** The proleptic Gregorian date of day `z` counted from 1970-01-01
      (the days-to-civil conversion on 400-year eras starting in March). */
  function CivilFromDays(z: int): Date {
    var shifted := z + 719468;
    var era := shifted / 146097;
    var doe := shifted - era * 146097;
    var yoe := (doe - doe / 1460 + doe / 36524 - doe / 146096) / 365;
    var doy := doe - (365 * yoe + yoe / 4 - yoe / 100);
    var mp := (5 * doy + 2) / 153;
    var d := doy - (153 * mp + 2) / 5 + 1;
    var m := if mp < 10 then mp + 3 else mp - 9;
    Date(yoe + era * 400 + (if m <= 2 then 1 else 0), m, d)
  }

  /** Go's `Weekday` numbering of day `z`: Sunday is 0; 1970-01-01 was a
      Thursday. */
  function Weekday(z: int): int {
    (z + 4) % 7
  }

  /** The index of the Monday-aligned week that contains day `z`. */
  function WeekIndex(z: int): int {
    (z + 3) / 7
  }

  /** Every week begins on a Monday and holds the six days after it. */
  lemma WeekBounds(z: int)
    ensures 7 * WeekIndex(z) - 3 <= z < 7 * WeekIndex(z) + 4
    ensures Weekday(7 * WeekIndex(z) - 3) == 1
  {
    var w := WeekIndex(z);
    assert 7 * w <= z + 3 < 7 * w + 7;
    assert 7 * w - 3 + 4 == 7 * w + 1;
    assert (7 * w + 1) % 7 == 1;
  }

  datatype Period = Daily | Weekly | Monthly

  /** The `period` values `aggregateByPeriod` recognises. */
  function ParsePeriod(period: string): (r: Option<Period>)
    ensures r == Some(Daily) <==> period == "daily"
    ensures r == Some(Weekly) <==> period == "weekly"
    ensures r == Some(Monthly) <==> period == "monthly"
    ensures r.None? <==> period != "daily" && period != "weekly" && period != "monthly"
  {
    if period == "daily" then Some(Daily)
    else if period == "weekly" then Some(Weekly)
    else if period == "monthly" then Some(Monthly)
    else None
  }

  datatype PeriodKey =
    | YearMonthDay(year: int, month: int, day: int)  // "2006-01-02"
    | YearMonth(year: int, month: int)               // "2006-01"
    | YearWMonth(year: int, month: int)              // "2006-W01": a literal W before the month
    | MondayWeek(index: int)                         // one key per Monday-aligned week

  /** The key `metric.Timestamp.Format(timeFormat)` prints, as written. In the
      weekly layout `2006-W01` only `2006` (year) and `01` (month) are layout
      elements; the `W` is copied literally. */
  function LayoutKey(p: Period, t: int): (r: PeriodKey)
    ensures r.YearMonthDay? <==> p == Daily
    ensures !r.MondayWeek?
  {
    var date := CivilFromDays(DayNumber(t));
    match p
    case Daily => YearMonthDay(date.year, date.month, date.day)
    case Weekly => YearWMonth(date.year, date.month)
    case Monthly => YearMonth(date.year, date.month)
  }

  /** As written, weekly buckets are monthly buckets under another name. */
  lemma WeeklyLayoutIsMonthly(a: int, b: int)
    ensures LayoutKey(Weekly, a) == LayoutKey(Weekly, b) <==> LayoutKey(Monthly, a) == LayoutKey(Monthly, b)
  {
  }

  /** Monday 2024-01-01 and Monday 2024-01-29, four weeks apart, share the
      weekly key as written. */
  lemma WeeklyLayoutCounterexample()
    ensures CivilFromDays(DayNumber(1704067200)) == Date(2024, 1, 1)
    ensures CivilFromDays(DayNumber(1706486400)) == Date(2024, 1, 29)
    ensures LayoutKey(Weekly, 1704067200) == LayoutKey(Weekly, 1706486400)
    ensures WeekIndex(DayNumber(1706486400)) == WeekIndex(DayNumber(1704067200)) + 4
  {
    assert DayNumber(1704067200) == 19723;
    assert DayNumber(1706486400) == 19751;
    CivilFromDaysInJanuary2024(19723, 1);
    CivilFromDaysInJanuary2024(19751, 29);
  }

  /** The days of January 2024, 19723 to 19753 days after the epoch. */
  lemma CivilFromDaysInJanuary2024(z: int, d: int)
    requires 19723 <= z <= 19753 && d == z - 19722
    ensures CivilFromDays(z) == Date(2024, 1, d)
  {
    var shifted := z + 719468;
    assert shifted / 146097 == 5;
    var doe := shifted - 5 * 146097;
    assert doe == z - 11017;
    assert doe / 1460 == 5 && doe / 36524 == 0 && doe / 146096 == 0;
    assert (doe - 5) / 365 == 23;
    var doy := doe - (365 * 23 + 23 / 4 - 23 / 100);
    assert doy == z - 19417;
    assert (5 * doy + 2) / 153 == 10;
    assert (153 * 10 + 2) / 5 == 306;
  }

  /** The corrected period key: daily and monthly as written, weekly by the
      Monday-aligned week (the partition ISO 8601 weeks induce). */
  function BucketKey(p: Period, t: int): PeriodKey {
    match p
    case Weekly => MondayWeek(WeekIndex(DayNumber(t)))
    case _ => LayoutKey(p, t)
  }

  /** Two instants share a corrected weekly bucket exactly when they fall in
      the same Monday-to-Sunday week, so they are less than seven days apart. */
  lemma WeeklyBucketIsWeek(a: int, b: int)
    ensures BucketKey(Weekly, a) == BucketKey(Weekly, b) <==> WeekIndex(DayNumber(a)) == WeekIndex(DayNumber(b))
    ensures BucketKey(Weekly, a) == BucketKey(Weekly, b) ==> -7 < DayNumber(a) - DayNumber(b) < 7
  {
    WeekBounds(DayNumber(a));
    WeekBounds(DayNumber(b));
  }

  /** The weekly key separates the two Mondays of the counterexample. */
  lemma WeeklyBucketSeparatesCounterexample()
    ensures BucketKey(Weekly, 1704067200) != BucketKey(Weekly, 1706486400)
  {
    assert DayNumber(1704067200) == 19723;
    assert DayNumber(1706486400) == 19751;
  }

  /** Every period key depends on the day alone. */
  lemma SameDaySameBucket(p: Period, a: int, b: int)
    requires DayNumber(a) == DayNumber(b)
    ensures BucketKey(p, a) == BucketKey(p, b)
  {
  }

  /** Instants on the same calendar day share the monthly bucket. */
  lemma DailyRefinesMonthly(a: int, b: int)
    requires BucketKey(Daily, a) == BucketKey(Daily, b)
    ensures BucketKey(Monthly, a) == BucketKey(Monthly, b)
  {
  }
}
