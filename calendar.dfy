/**
 * Proleptic Gregorian date-times with a fixed UTC offset (the model of java.time.OffsetDateTime
 * restricted to whole-minute offsets), and conversion of a value to another offset at the same instant.
 */
module Calendar {

  /** Local date and time fields plus the offset from UTC in minutes (east positive). */
  datatype DateTime = DateTime(
    year: int, month: int, day: int,
    hour: int, minute: int, second: int, nano: int,
    offset: int)

  /** java.time.ZoneOffset accepts offsets up to 18 hours either side of UTC. */
  const MaxOffsetMinutes: int := 18 * 60

  predicate ValidOffset(offset: int) {
    -MaxOffsetMinutes <= offset <= MaxOffsetMinutes
  }

  predicate IsLeapYear(y: int) {
    y % 4 == 0 && (y % 100 != 0 || y % 400 == 0)
  }

  function DaysInMonth(y: int, m: int): (n: int)
    requires 1 <= m <= 12
    ensures 28 <= n <= 31
    ensures n == 29 <==> m == 2 && IsLeapYear(y)
  {
    if m == 2 then (if IsLeapYear(y) then 29 else 28)
    else if m == 4 || m == 6 || m == 9 || m == 11 then 30
    else 31
  }

  /** Every field within the range java.time accepts for it. */
  predicate WellFormed(d: DateTime) {
    && 1 <= d.month <= 12
    && 1 <= d.day <= DaysInMonth(d.year, d.month)
    && 0 <= d.hour < 24
    && 0 <= d.minute < 60
    && 0 <= d.second < 60
    && 0 <= d.nano < 1_000_000_000
    && ValidOffset(d.offset)
  }

  /** A well-formed value: the record every renderer receives. */
  type Timestamp = d: DateTime | WellFormed(d) witness DateTime(1970, 1, 1, 0, 0, 0, 0, 0)

  /** Days from 0001-01-01 to the first day of year y (negative before it). */
  function DaysBeforeYear(y: int): int {
    var a := y - 1;
    365 * a + a / 4 - a / 100 + a / 400
  }

  /** Days from the first of January to the first day of month m of year y. */
  function DaysBeforeMonth(y: int, m: int): int
    requires 1 <= m <= 12
  {
    (if IsLeapYear(y) && m > 2 then 1 else 0) +
    (if m == 1 then 0 else if m == 2 then 31 else if m == 3 then 59
     else if m == 4 then 90 else if m == 5 then 120 else if m == 6 then 151
     else if m == 7 then 181 else if m == 8 then 212 else if m == 9 then 243
     else if m == 10 then 273 else if m == 11 then 304 else 334)
  }

  /** The day's position on a continuous count of days. */
  function DayNumber(d: DateTime): int
    requires 1 <= d.month <= 12
  {
    DaysBeforeYear(d.year) + DaysBeforeMonth(d.year, d.month) + d.day - 1
  }

  /** The instant, in whole minutes since 0001-01-01T00:00Z. Seconds and nanos are kept apart. */
  function InstantMinutes(d: DateTime): int
    requires 1 <= d.month <= 12
  {
    DayNumber(d) * 1440 + d.hour * 60 + d.minute - d.offset
  }

  /** Going from y - 1 to y passes one multiple of k exactly when y is one. */
  lemma DivStep(y: int, k: int)
    requires k == 4 || k == 100 || k == 400
    ensures y / k - (y - 1) / k == if y % k == 0 then 1 else 0
  {
    if k == 4 {
      assert y / 4 - (y - 1) / 4 == if y % 4 == 0 then 1 else 0;
    } else if k == 100 {
      assert y / 100 - (y - 1) / 100 == if y % 100 == 0 then 1 else 0;
    } else {
      assert y / 400 - (y - 1) / 400 == if y % 400 == 0 then 1 else 0;
    }
  }

  /** A multiple of 100 is a multiple of 4, and a multiple of 400 one of 100. */
  lemma CenturyDivisors(y: int)
    ensures y % 100 == 0 ==> y % 4 == 0
    ensures y % 400 == 0 ==> y % 100 == 0
  {
    if y % 100 == 0 {
      assert y == 4 * (25 * (y / 100));
    }
    if y % 400 == 0 {
      assert y == 100 * (4 * (y / 400));
    }
  }

  /** A year has 366 days exactly when it is a leap year. */
  lemma YearLength(y: int)
    ensures DaysBeforeYear(y + 1) - DaysBeforeYear(y) == if IsLeapYear(y) then 366 else 365
  {
    var a := y - 1;
    DivStep(y, 4);
    DivStep(y, 100);
    DivStep(y, 400);
    CenturyDivisors(y);
    assert DaysBeforeYear(y + 1) - DaysBeforeYear(y) == 365 + (y / 4 - a / 4) - (y / 100 - a / 100) + (y / 400 - a / 400);
  }

  /** Consecutive months are adjacent on the day count. */
  lemma MonthLength(y: int, m: int)
    requires 1 <= m < 12
    ensures DaysBeforeMonth(y, m + 1) == DaysBeforeMonth(y, m) + DaysInMonth(y, m)
  {
  }

  /** The calendar day after d, time of day and offset unchanged. */
  function NextDay(d: DateTime): (r: DateTime)
    requires WellFormed(d)
    ensures WellFormed(r) && DayNumber(r) == DayNumber(d) + 1
    ensures r.hour == d.hour && r.minute == d.minute && r.second == d.second
    ensures r.nano == d.nano && r.offset == d.offset
  {
    if d.day < DaysInMonth(d.year, d.month) then d.(day := d.day + 1)
    else if d.month < 12 then MonthLength(d.year, d.month); d.(month := d.month + 1, day := 1)
    else YearLength(d.year); d.(year := d.year + 1, month := 1, day := 1)
  }

  /** The calendar day before d, time of day and offset unchanged. */
  function PreviousDay(d: DateTime): (r: DateTime)
    requires WellFormed(d)
    ensures WellFormed(r) && DayNumber(r) == DayNumber(d) - 1
    ensures r.hour == d.hour && r.minute == d.minute && r.second == d.second
    ensures r.nano == d.nano && r.offset == d.offset
  {
    if d.day > 1 then d.(day := d.day - 1)
    else if d.month > 1 then
      MonthLength(d.year, d.month - 1); d.(month := d.month - 1, day := DaysInMonth(d.year, d.month - 1))
    else YearLength(d.year - 1); d.(year := d.year - 1, month := 12, day := 31)
  }

  /** Moves the date k days along the calendar. */
  function ShiftDays(d: DateTime, k: int): (r: DateTime)
    requires WellFormed(d)
    ensures WellFormed(r) && DayNumber(r) == DayNumber(d) + k
    ensures r.hour == d.hour && r.minute == d.minute && r.second == d.second
    ensures r.nano == d.nano && r.offset == d.offset
    decreases if k < 0 then -k else k
  {
    if k == 0 then d
    else if k > 0 then ShiftDays(NextDay(d), k - 1)
    else ShiftDays(PreviousDay(d), k + 1)
  }

  /**
   * The same instant seen at another offset (OffsetDateTime.atZoneSameInstant for a fixed-offset zone):
   * the local fields move by the difference of the offsets, carrying into the date.
   */
  function ToOffset(d: DateTime, offset: int): (r: DateTime)
    requires WellFormed(d) && ValidOffset(offset)
    ensures WellFormed(r) && r.offset == offset
    ensures InstantMinutes(r) == InstantMinutes(d)
    ensures r.second == d.second && r.nano == d.nano
  {
    var total := d.hour * 60 + d.minute + (offset - d.offset);
    var minuteOfDay := total % 1440;
    var shifted := ShiftDays(d, total / 1440);
    shifted.(hour := minuteOfDay / 60, minute := minuteOfDay % 60, offset := offset)
  }

  /** Converting a value to the offset it already has changes nothing. */
  lemma ToOwnOffset(d: DateTime)
    requires WellFormed(d)
    ensures ToOffset(d, d.offset) == d
  {
    var total := d.hour * 60 + d.minute;
    assert total / 1440 == 0 && total % 1440 == total;
    assert total / 60 == d.hour && total % 60 == d.minute;
  }
}
