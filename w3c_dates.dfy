/**
 * The W3C "Date and Time Formats" note as used by sitemaps: six fixed-precision shapes, an AUTO
 * mode that picks the coarsest shape that loses no non-zero field, and the matching parser.
 * A formatter carries a pattern, whether the zone is applied when printing, a target zone and
 * the AUTO flag (the four final fields of the Java class).
 */
module W3CDates {
  import opened Wrappers
  import opened Text
  import opened Calendar

  /** The six fixed-precision shapes, coarsest first. */
  datatype Shape = Year | Month | Day | Minute | Second | Millisecond

  function Rank(s: Shape): nat {
    match s
    case Year => 0
    case Month => 1
    case Day => 2
    case Minute => 3
    case Second => 4
    case Millisecond => 5
  }

  /** The time shapes print a time of day and a zone designator; the date shapes print neither. */
  predicate HasTime(s: Shape) {
    Rank(s) >= 3
  }

  /** The pattern a formatter was built with: one fixed shape, or the all-optional AUTO pattern. */
  datatype Pattern = Fixed(shape: Shape) | AutoPattern

  /** A fixed-offset zone, in minutes east of UTC. */
  type ZoneOffset = z: int | ValidOffset(z)

  const UTC: ZoneOffset := 0

  datatype W3CDateFormat = W3CDateFormat(
    pattern: Pattern,
    includeTimeZone: bool,
    timeZone: ZoneOffset,
    isAuto: bool)

  const AUTO: W3CDateFormat := W3CDateFormat(AutoPattern, true, UTC, true)
  const MILLISECOND: W3CDateFormat := W3CDateFormat(Fixed(Millisecond), true, UTC, false)
  const SECOND: W3CDateFormat := W3CDateFormat(Fixed(Second), true, UTC, false)
  const MINUTE: W3CDateFormat := W3CDateFormat(Fixed(Minute), true, UTC, false)
  const DAY: W3CDateFormat := W3CDateFormat(Fixed(Day), false, UTC, false)
  const MONTH: W3CDateFormat := W3CDateFormat(Fixed(Month), false, UTC, false)
  const YEAR: W3CDateFormat := W3CDateFormat(Fixed(Year), false, UTC, false)

  /** The public constant for a fixed shape. */
  function ConstantFor(s: Shape): W3CDateFormat {
    match s
    case Year => YEAR
    case Month => MONTH
    case Day => DAY
    case Minute => MINUTE
    case Second => SECOND
    case Millisecond => MILLISECOND
  }

  /** The no-argument constructor. */
  function NewDefault(): (f: W3CDateFormat)
    ensures f == AUTO
  {
    W3CDateFormat(AutoPattern, true, UTC, true)
  }

  /** The public three-argument constructor: always a fixed, non-AUTO formatter. */
  function New(shape: Shape, includeTimeZone: bool, zone: ZoneOffset): (f: W3CDateFormat)
    ensures !f.isAuto && f.pattern == Fixed(shape)
    ensures f.includeTimeZone == includeTimeZone && f.timeZone == zone
  {
    W3CDateFormat(Fixed(shape), includeTimeZone, zone, false)
  }

  /** A copy of the formatter targeting another zone. */
  function WithZone(f: W3CDateFormat, zone: ZoneOffset): (r: W3CDateFormat)
    ensures r.pattern == f.pattern && r.includeTimeZone == f.includeTimeZone && r.isAuto == f.isAuto
    ensures r.timeZone == zone
  {
    f.(timeZone := zone)
  }

  // ---------------------------------------------------------------- printing

  /** `yyyy`: year-of-era, zero-padded to four digits, with a plus sign when it needs more. */
  function YearText(y: int): (s: string)
    ensures 1 <= y <= 9999 ==> s == Pad4(y)
  {
    var yearOfEra := if y >= 1 then y else 1 - y;
    if yearOfEra <= 9999 then Pad4(yearOfEra) else "+" + NatToString(yearOfEra)
  }

  /** `XXX`: the letter Z for UTC, otherwise a sign, two-digit hours, a colon and two-digit minutes. */
  function ZoneText(offset: ZoneOffset): (s: string)
    ensures offset == 0 <==> s == "Z"
    ensures offset != 0 ==> |s| == 6 && s[3] == ':' && (s[0] == '-' <==> offset < 0)
  {
    if offset == 0 then "Z"
    else
      var minutes: int := offset;
      var magnitude := if minutes < 0 then -minutes else minutes;
      assert ValidOffset(offset) && MaxOffsetMinutes == 1080;
      [if minutes < 0 then '-' else '+'] + Pad2(magnitude / 60) + ":" + Pad2(magnitude % 60)
  }

  function MilliOfSecond(d: DateTime): int {
    d.nano / 1_000_000
  }

  /** A separator character followed by the digits of one field. */
  function Field(sep: char, digits: string): string {
    [sep] + digits
  }

  /** The text of d in one fixed shape, using d's own local fields and offset. */
  function Print(shape: Shape, d: Timestamp): string {
    YearText(d.year) + (if Rank(shape) >= 1 then Field('-', Pad2(d.month)) + AfterMonth(shape, d) else "")
  }

  function AfterMonth(shape: Shape, d: Timestamp): string {
    if Rank(shape) >= 2 then Field('-', Pad2(d.day)) + AfterDay(shape, d) else ""
  }

  function AfterDay(shape: Shape, d: Timestamp): string {
    if HasTime(shape) then Field('T', Pad2(d.hour)) + (Field(':', Pad2(d.minute)) + AfterMinute(shape, d)) else ""
  }

  function AfterMinute(shape: Shape, d: Timestamp): string {
    if Rank(shape) >= 4 then Field(':', Pad2(d.second)) + AfterSecond(shape, d) else ZoneText(d.offset)
  }

  function AfterSecond(shape: Shape, d: Timestamp): string {
    if shape == Millisecond then Field('.', Pad3(MilliOfSecond(d))) + ZoneText(d.offset) else ZoneText(d.offset)
  }

  /** The AUTO decision table: milliseconds, then seconds, then hour and minute, else the day. */
  function AutoShape(d: DateTime): (s: Shape)
    ensures s != Year && s != Month
  {
    if MilliOfSecond(d) > 0 then Millisecond
    else if d.second > 0 then Second
    else if d.hour + d.minute > 0 then Minute
    else Day
  }

  /** The shape a non-AUTO formatter prints; the AUTO pattern prints all of its optional sections. */
  function PatternShape(p: Pattern): Shape {
    match p
    case Fixed(s) => s
    case AutoPattern => Millisecond
  }

  /**
   * W3CDateFormat.format as written: convert to the target zone unless it is UTC, choose the shape
   * (AUTO looks at the value as it stands at this point), then print, converting to the target
   * zone once more when includeTimeZone is set. With the UTC zone and a value at another offset,
   * AUTO chooses on fields that are not the ones printed.
   */
  function FormatAsWritten(f: W3CDateFormat, d: Timestamp): string {
    var local := if f.timeZone != UTC then ToOffset(d, f.timeZone) else d;
    var shape := if f.isAuto then AutoShape(local) else PatternShape(f.pattern);
    var shown := if f.includeTimeZone then ToOffset(local, f.timeZone) else local;
    Print(shape, shown)
  }

  /**
   * The value format prints: the same instant in the target zone, except that a formatter that
   * omits the zone keeps a value's own local fields when the target zone is UTC.
   */
  function Shown(f: W3CDateFormat, d: Timestamp): (r: Timestamp)
    ensures InstantMinutes(r) == InstantMinutes(d) && r.second == d.second && r.nano == d.nano
    ensures f.includeTimeZone || f.timeZone != UTC ==> r.offset == f.timeZone
  {
    var local := if f.timeZone != UTC then ToOffset(d, f.timeZone) else d;
    if f.includeTimeZone then ToOffset(local, f.timeZone) else local
  }

  /** format, with AUTO choosing the shape on the value it prints. */
  function Format(f: W3CDateFormat, d: Timestamp): string {
    var shown := Shown(f, d);
    Print(if f.isAuto then AutoShape(shown) else PatternShape(f.pattern), shown)
  }

  // ---------------------------------------------------------------- parsing

  /** The fields a scan found; absent optional sections are None. */
  datatype Fields = Fields(
    year: int,
    month: Option<int>, day: Option<int>,
    hour: Option<int>, minute: Option<int>, second: Option<int>, milli: Option<int>,
    offset: Option<int>)

  /** The number of consecutive digits from position i, reading at most max of them. */
  function DigitRun(s: string, i: nat, max: nat): (n: nat)
    requires i <= |s|
    ensures n <= max && i + n <= |s|
    ensures forall k :: i <= k < i + n ==> IsDigit(s[k])
    ensures i + n < |s| && n < max ==> !IsDigit(s[i + n])
    decreases max
  {
    if max == 0 || i == |s| || !IsDigit(s[i]) then 0 else 1 + DigitRun(s, i + 1, max - 1)
  }

  /**
   * `yyyy`, read as java.time reads a year-of-era padded to four digits: exactly four digits
   * without a sign, or a sign followed by more than four digits (at most 19 are read). A minus
   * sign would make the year-of-era negative, which never resolves. Yields the year and the rest.
   */
  function YearAt(s: string): Option<(int, string)> {
    if |s| > 0 && s[0] == '+' then
      var n := DigitRun(s, 1, 19);
      if n > 4 then Some((DigitsValue(s[1..1 + n]), s[1 + n..])) else None
    else
      var n := DigitRun(s, 0, 19);
      if n == 4 then Some((DigitValue(s[0]) * 1000 + DigitValue(s[1]) * 100 + DigitValue(s[2]) * 10 + DigitValue(s[3]), s[4..]))
      else None
  }

  /** A separator followed by exactly two digits at the start of s. */
  function TwoAt(s: string, sep: char): Option<int> {
    if 3 <= |s| && s[0] == sep && IsDigit(s[1]) && IsDigit(s[2])
    then Some(DigitValue(s[1]) * 10 + DigitValue(s[2]))
    else None
  }

  /** A separator followed by exactly three digits at the start of s. */
  function ThreeAt(s: string, sep: char): Option<int> {
    if 4 <= |s| && s[0] == sep && IsDigit(s[1]) && IsDigit(s[2]) && IsDigit(s[3])
    then Some(DigitValue(s[1]) * 100 + DigitValue(s[2]) * 10 + DigitValue(s[3]))
    else None
  }

  /** A zone designator at the start of s: its offset in minutes and its length. */
  function ZoneAt(s: string): Option<(int, nat)> {
    if 1 <= |s| && s[0] == 'Z' then Some((0, 1))
    else if 6 <= |s| && (s[0] == '+' || s[0] == '-') && IsDigit(s[1]) && IsDigit(s[2])
      && s[3] == ':' && IsDigit(s[4]) && IsDigit(s[5])
      && DigitValue(s[4]) * 10 + DigitValue(s[5]) < 60
    then
      var minutes := (DigitValue(s[1]) * 10 + DigitValue(s[2])) * 60 + DigitValue(s[4]) * 10 + DigitValue(s[5]);
      Some((if s[0] == '-' then -minutes else minutes, 6))
    else None
  }

  /** The fields read so far and the text not yet read. */
  datatype Partial = Partial(fields: Fields, rest: string)

  /** The optional `-MM[-dd]` sections after the year. */
  function ScanDate(s: string, year: int): Partial {
    var none := Fields(year, None, None, None, None, None, None, None);
    match TwoAt(s, '-')
    case None => Partial(none, s)
    case Some(month) =>
      match TwoAt(s[3..], '-')
      case None => Partial(none.(month := Some(month)), s[3..])
      case Some(day) => Partial(none.(month := Some(month), day := Some(day)), s[6..])
  }

  /** The optional `THH[:mm[:ss[.SSS]]]` sections. */
  function ScanClock(r: Partial): Partial {
    var s := r.rest;
    match TwoAt(s, 'T')
    case None => r
    case Some(hour) =>
      var f := r.fields.(hour := Some(hour));
      match TwoAt(s[3..], ':')
      case None => Partial(f, s[3..])
      case Some(minute) =>
        var f := f.(minute := Some(minute));
        match TwoAt(s[6..], ':')
        case None => Partial(f, s[6..])
        case Some(second) =>
          var f := f.(second := Some(second));
          match ThreeAt(s[9..], '.')
          case None => Partial(f, s[9..])
          case Some(milli) => Partial(f.(milli := Some(milli)), s[13..])
  }

  /** The optional zone designator, after which the text must end. */
  function ScanZone(r: Partial): Option<Fields> {
    match ZoneAt(r.rest)
    case None => if r.rest == [] then Some(r.fields) else None
    case Some((offset, length)) =>
      if |r.rest| == length then Some(r.fields.(offset := Some(offset))) else None
  }

  /**
   * Reads `yyyy[-MM[-dd]][THH[:mm[:ss[.SSS]]]][zone]`. An optional section is taken when it is
   * complete where the previous one ended and skipped otherwise; the whole text must be consumed.
   */
  function Scan(s: string): Option<Fields> {
    match YearAt(s)
    case None => None
    case Some((year, rest)) => ScanZone(ScanClock(ScanDate(rest, year)))
  }

  /** Whether the sections found are exactly those of a fixed shape (the zone is optional for time shapes). */
  predicate Fits(shape: Shape, f: Fields) {
    match shape
    case Year => f.month.None? && f.hour.None? && f.offset.None?
    case Month => f.month.Some? && f.day.None? && f.hour.None? && f.offset.None?
    case Day => f.day.Some? && f.hour.None? && f.offset.None?
    case Minute => f.day.Some? && f.minute.Some? && f.second.None?
    case Second => f.day.Some? && f.second.Some? && f.milli.None?
    case Millisecond => f.day.Some? && f.milli.Some?
  }

  function Min(a: int, b: int): int {
    if a <= b then a else b
  }

  /** The largest year java.time represents. */
  const MaxYear: int := 999_999_999

  /**
   * Fills absent fields with their defaults (month and day 1, time 0, offset UTC) and resolves the
   * result as java.time's default (smart) resolver does: out-of-range fields fail, a day-of-month
   * up to 31 is clamped to the month's length, and 24:00 is midnight of the next day.
   */
  function Resolve(f: Fields): (r: Option<Timestamp>)
    ensures r.Some? ==> 1 <= r.value.year <= MaxYear && r.value.offset == f.offset.GetOr(0)
    ensures r.Some? ==> r.value.nano == f.milli.GetOr(0) * 1_000_000
  {
    var month := f.month.GetOr(1);
    var day := f.day.GetOr(1);
    var hour := f.hour.GetOr(0);
    var minute := f.minute.GetOr(0);
    var second := f.second.GetOr(0);
    var nano := f.milli.GetOr(0) * 1_000_000;
    var offset := f.offset.GetOr(0);
    if !(1 <= f.year <= MaxYear && 1 <= month <= 12 && 1 <= day <= 31 && 0 <= minute < 60 && 0 <= second < 60
         && 0 <= nano < 1_000_000_000 && ValidOffset(offset) && 0 <= hour <= 24) then None
    else
      var date := DateTime(f.year, month, Min(day, DaysInMonth(f.year, month)), 0, minute, second, nano, offset);
      if hour < 24 then Some(date.(hour := hour))
      else if minute == 0 && second == 0 && nano == 0 && NextDay(date).year <= MaxYear then Some(NextDay(date))
      else None
  }

  lemma WholeMillis(m: int)
    ensures (m * 1_000_000) % 1_000_000 == 0
  {
  }

  /**
   * W3CDateFormat.parse: the AUTO pattern accepts every shape, a fixed pattern only its own; the
   * offset written in the text is kept, not converted. Malformed text yields None.
   */
  function Parse(f: W3CDateFormat, s: string): (r: Option<Timestamp>)
    ensures r.Some? ==> 1 <= r.value.year <= MaxYear && r.value.nano % 1_000_000 == 0
    ensures r.Some? && f.pattern.Fixed? && !HasTime(f.pattern.shape) ==> r.value.offset == 0
  {
    match Scan(s)
    case None => None
    case Some(fields) =>
      WholeMillis(fields.milli.GetOr(0));
      match f.pattern
      case AutoPattern => Resolve(fields)
      case Fixed(shape) => if Fits(shape, fields) then Resolve(fields) else None
  }

  // ---------------------------------------------------------------- printing then parsing

  /** The value a fixed shape keeps: the fields it prints, with the defaults parsing fills in. */
  function Truncate(shape: Shape, d: Timestamp): (r: Timestamp)
    ensures r.year == d.year
  {
    DateTime(
      d.year,
      if Rank(shape) >= 1 then d.month else 1,
      if Rank(shape) >= 2 then d.day else 1,
      if HasTime(shape) then d.hour else 0,
      if HasTime(shape) then d.minute else 0,
      if Rank(shape) >= 4 then d.second else 0,
      if shape == Millisecond then MilliOfSecond(d) * 1_000_000 else 0,
      if HasTime(shape) then d.offset else 0)
  }

  /** The sections a printed shape contains. */
  function FieldsOf(shape: Shape, d: Timestamp): Fields {
    Fields(
      d.year,
      if Rank(shape) >= 1 then Some(d.month) else None,
      if Rank(shape) >= 2 then Some(d.day) else None,
      if HasTime(shape) then Some(d.hour) else None,
      if HasTime(shape) then Some(d.minute) else None,
      if Rank(shape) >= 4 then Some(d.second) else None,
      if shape == Millisecond then Some(MilliOfSecond(d)) else None,
      if HasTime(shape) then Some(d.offset) else None)
  }

  lemma {:induction false} DigitRunOver(p: string, a: string, b: string, max: nat)
    requires AllDigits(a) && |a| <= max
    requires |b| == 0 || !IsDigit(b[0])
    ensures DigitRun(p + a + b, |p|, max) == |a|
    decreases |a|
  {
    if |a| > 0 {
      assert (p + a + b)[|p|] == a[0];
      assert p + a + b == (p + a[..1]) + a[1..] + b;
      DigitRunOver(p + a[..1], a[1..], b, max - 1);
    } else {
      assert p + a + b == p + b;
      assert |b| > 0 ==> (p + b)[|p|] == b[0];
    }
  }

  /** The year section reads back every year java.time represents, whatever non-digit follows. */
  lemma YearAtText(y: int, rest: string)
    requires 1 <= y <= MaxYear
    requires |rest| == 0 || !IsDigit(rest[0])
    ensures YearAt(YearText(y) + rest) == Some((y, rest))
  {
    if y <= 9999 {
      YearAtPadded(y, rest);
    } else {
      YearAtSigned(y, rest);
    }
  }

  lemma YearAtPadded(y: int, rest: string)
    requires 1 <= y <= 9999
    requires |rest| == 0 || !IsDigit(rest[0])
    ensures YearAt(Pad4(y) + rest) == Some((y, rest))
  {
    var t := Pad4(y);
    var s := t + rest;
    assert s == "" + t + rest;
    DigitRunOver("", t, rest, 19);
    assert s[0] == t[0] && s[1] == t[1] && s[2] == t[2] && s[3] == t[3];
    assert s[4..] == rest;
  }

  lemma YearAtSigned(y: int, rest: string)
    requires 9999 < y <= MaxYear
    requires |rest| == 0 || !IsDigit(rest[0])
    ensures YearAt("+" + NatToString(y) + rest) == Some((y, rest))
  {
    var t := NatToString(y);
    var s := "+" + t + rest;
    NatToStringLength(y, 4);
    NatToStringLength(y, 9);
    assert Pow10(4) == 10_000 && Pow10(9) == 1_000_000_000;
    DigitRunOver("+", t, rest, 19);
    assert s[1..1 + |t|] == t;
    assert s[1 + |t|..] == rest;
    NatToStringRoundTrip(y);
  }

  lemma TwoAtField(sep: char, n: nat, rest: string)
    requires n < 100
    ensures TwoAt(Field(sep, Pad2(n)) + rest, sep) == Some(n)
    ensures (Field(sep, Pad2(n)) + rest)[3..] == rest
  {
  }

  lemma ThreeAtField(sep: char, n: nat, rest: string)
    requires n < 1000
    ensures ThreeAt(Field(sep, Pad3(n)) + rest, sep) == Some(n)
    ensures (Field(sep, Pad3(n)) + rest)[4..] == rest
  {
  }

  lemma ZoneAtText(offset: ZoneOffset)
    ensures ZoneAt(ZoneText(offset)) == Some((offset as int, |ZoneText(offset)|))
    ensures TwoAt(ZoneText(offset), ':') == None && ThreeAt(ZoneText(offset), '.') == None
    ensures TwoAt(ZoneText(offset), 'T') == None
  {
    var z := ZoneText(offset);
    if offset != 0 {
      var minutes: int := offset;
      var magnitude := if minutes < 0 then -minutes else minutes;
      assert ValidOffset(offset) && MaxOffsetMinutes == 1080;
      var hh := Pad2(magnitude / 60);
      var mm := Pad2(magnitude % 60);
      assert z == [if minutes < 0 then '-' else '+'] + hh + ":" + mm;
      assert z[1] == hh[0] && z[2] == hh[1] && z[4] == mm[0] && z[5] == mm[1];
      assert (magnitude / 60) * 60 + magnitude % 60 == magnitude;
    }
  }

  /** The clock sections of a time shape: everything up to its zone designator. */
  lemma ScanAfterDay(shape: Shape, d: Timestamp)
    requires HasTime(shape)
    ensures ScanClock(Partial(FieldsOf(Day, d), AfterDay(shape, d)))
         == Partial(FieldsOf(shape, d).(offset := None), ZoneText(d.offset))
  {
    var s := AfterDay(shape, d);
    var afterMinute := AfterMinute(shape, d);
    TwoAtField('T', d.hour, Field(':', Pad2(d.minute)) + afterMinute);
    TwoAtField(':', d.minute, afterMinute);
    assert s[6..] == s[3..][3..] == afterMinute;
    ScanAfterMinute(shape, d, s);
  }

  /** The seconds and milliseconds sections, read from the text after the minutes. */
  lemma ScanAfterMinute(shape: Shape, d: Timestamp, s: string)
    requires HasTime(shape)
    requires TwoAt(s, 'T') == Some(d.hour) && TwoAt(s[3..], ':') == Some(d.minute)
    requires |s| >= 6 && s[6..] == AfterMinute(shape, d)
    ensures ScanClock(Partial(FieldsOf(Day, d), s))
         == Partial(FieldsOf(shape, d).(offset := None), ZoneText(d.offset))
  {
    var z := ZoneText(d.offset);
    var afterSecond := AfterSecond(shape, d);
    ZoneAtText(d.offset);
    if Rank(shape) >= 4 {
      TwoAtField(':', d.second, afterSecond);
      assert s[9..] == s[6..][3..] == afterSecond;
      if shape == Millisecond {
        ThreeAtField('.', MilliOfSecond(d), z);
        assert s[13..] == s[9..][4..] == z;
      }
    }
  }

  /** Scanning the text of a shape recovers exactly the sections that shape prints. */
  lemma ScanPrint(shape: Shape, d: Timestamp)
    requires 1 <= d.year <= MaxYear
    ensures Scan(Print(shape, d)) == Some(FieldsOf(shape, d))
  {
    var afterYear := if Rank(shape) >= 1 then Field('-', Pad2(d.month)) + AfterMonth(shape, d) else "";
    assert Print(shape, d) == YearText(d.year) + afterYear;
    YearAtText(d.year, afterYear);
    ScanAfterYear(shape, d, afterYear);
  }

  lemma ScanAfterYear(shape: Shape, d: Timestamp, afterYear: string)
    requires afterYear == if Rank(shape) >= 1 then Field('-', Pad2(d.month)) + AfterMonth(shape, d) else ""
    ensures ScanZone(ScanClock(ScanDate(afterYear, d.year))) == Some(FieldsOf(shape, d))
  {
    if Rank(shape) >= 1 {
      var afterMonth := AfterMonth(shape, d);
      TwoAtField('-', d.month, afterMonth);
      if Rank(shape) >= 2 {
        var afterDay := AfterDay(shape, d);
        TwoAtField('-', d.day, afterDay);
        assert ScanDate(afterYear, d.year) == Partial(FieldsOf(Day, d), afterDay);
        if HasTime(shape) {
          ScanAfterDay(shape, d);
          ZoneAtText(d.offset);
        }
      }
    }
  }

  // ---------------------------------------------------------------- properties

  lemma MillisScale(m: int)
    requires 0 <= m < 1000
    ensures (m * 1_000_000) / 1_000_000 == m && (m * 1_000_000) % 1_000_000 == 0
  {
  }

  /** Printing a shape and parsing it back keeps exactly the fields that shape prints. */
  lemma PrintParseRoundTrip(f: W3CDateFormat, shape: Shape, d: Timestamp)
    requires 1 <= d.year <= MaxYear
    requires f.pattern == Fixed(shape) || f.pattern == AutoPattern
    ensures Parse(f, Print(shape, d)) == Some(Truncate(shape, d))
  {
    ScanPrint(shape, d);
    assert Fits(shape, FieldsOf(shape, d));
    ResolveFieldsOf(shape, d);
  }

  lemma ResolveFieldsOf(shape: Shape, d: Timestamp)
    requires 1 <= d.year <= MaxYear
    ensures Resolve(FieldsOf(shape, d)) == Some(Truncate(shape, d))
  {
    MillisScale(MilliOfSecond(d));
  }

  /** A fixed pattern accepts the text of its own shape and rejects the text of every other shape. */
  lemma FixedPatternsDisjoint(pattern: Shape, shape: Shape, d: Timestamp)
    requires 1 <= d.year <= MaxYear
    ensures Parse(ConstantFor(pattern), Print(shape, d)).Some? <==> pattern == shape
  {
    ScanPrint(shape, d);
    if pattern == shape {
      PrintParseRoundTrip(ConstantFor(pattern), shape, d);
    } else {
      assert !Fits(pattern, FieldsOf(shape, d));
    }
  }

  /** A fixed formatter's output parses back to its shape's part of the printed value. */
  lemma FormatParseFixed(f: W3CDateFormat, d: Timestamp)
    requires !f.isAuto && f.pattern.Fixed?
    requires 1 <= Shown(f, d).year <= MaxYear
    ensures Parse(f, Format(f, d)) == Some(Truncate(f.pattern.shape, Shown(f, d)))
  {
    PrintParseRoundTrip(f, f.pattern.shape, Shown(f, d));
  }

  /** A zoned time pattern keeps the instant (to its precision) and writes the target zone. */
  lemma ZonedFormatKeepsInstant(f: W3CDateFormat, d: Timestamp)
    requires !f.isAuto && f.pattern.Fixed? && HasTime(f.pattern.shape) && f.includeTimeZone
    requires 1 <= Shown(f, d).year <= MaxYear
    ensures var r := Parse(f, Format(f, d));
      && r.Some? && r.value.offset == f.timeZone
      && InstantMinutes(r.value) == InstantMinutes(d)
      && (Rank(f.pattern.shape) >= 4 ==> r.value.second == d.second)
  {
    FormatParseFixed(f, d);
  }

  /** What the no-argument constructor's formatter prints parses back to the very value, for a UTC value with whole milliseconds. */
  lemma NewDefaultRoundTrip(d: Timestamp)
    requires d.offset == UTC && d.nano % 1_000_000 == 0 && 1 <= d.year <= MaxYear
    ensures Parse(NewDefault(), FormatAsWritten(NewDefault(), d)) == Some(d)
  {
    ToOwnOffset(d);
    AutoRoundTrip(d);
    FormatAgreesWithAsWritten(AUTO, d);
  }

  /** What a formatter from the three-argument constructor prints parses back to its shape's part of the printed value. */
  lemma NewRoundTrip(shape: Shape, includeTimeZone: bool, zone: ZoneOffset, d: Timestamp)
    requires 1 <= Shown(New(shape, includeTimeZone, zone), d).year <= MaxYear
    ensures var f := New(shape, includeTimeZone, zone);
      Parse(f, FormatAsWritten(f, d)) == Some(Truncate(shape, Shown(f, d)))
  {
    var f := New(shape, includeTimeZone, zone);
    FormatParseFixed(f, d);
    FormatAgreesWithAsWritten(f, d);
  }

  /**
   * `withZone` moves a zoned time formatter to another zone without losing the instant: what the
   * copy prints parses back at the new zone, at the same minute.
   */
  lemma WithZoneKeepsInstant(f: W3CDateFormat, zone: ZoneOffset, d: Timestamp)
    requires !f.isAuto && f.pattern.Fixed? && HasTime(f.pattern.shape) && f.includeTimeZone
    requires 1 <= Shown(WithZone(f, zone), d).year <= MaxYear
    ensures var g := WithZone(f, zone);
      var r := Parse(g, FormatAsWritten(g, d));
      r.Some? && r.value.offset == zone && InstantMinutes(r.value) == InstantMinutes(d)
  {
    var g := WithZone(f, zone);
    ZonedFormatKeepsInstant(g, d);
    FormatAgreesWithAsWritten(g, d);
  }

  /**
   * AUTO's choice is the coarsest of DAY, MINUTE, SECOND and MILLISECOND that keeps a UTC value
   * with whole milliseconds intact: that shape and every finer one lose nothing, every coarser
   * one loses a nonzero field.
   */
  lemma AutoShapeIsCoarsestExact(t: Timestamp, shape: Shape)
    requires t.offset == 0 && t.nano % 1_000_000 == 0 && Rank(shape) >= 2
    ensures Truncate(shape, t) == t <==> Rank(shape) >= Rank(AutoShape(t))
  {
    var m := MilliOfSecond(t);
    assert t.nano == m * 1_000_000;
    MillisScale(m);
  }

  /** With whole milliseconds, AUTO loses nothing: parsing its output gives the same instant in UTC. */
  lemma AutoRoundTrip(d: Timestamp)
    requires d.nano % 1_000_000 == 0
    requires 1 <= ToOffset(d, UTC).year <= MaxYear
    ensures Parse(AUTO, Format(AUTO, d)) == Some(ToOffset(d, UTC))
    ensures d.offset == UTC ==> Parse(AUTO, Format(AUTO, d)) == Some(d)
  {
    var t := ToOffset(d, UTC);
    assert Shown(AUTO, d) == t;
    assert Format(AUTO, d) == Print(AutoShape(t), t);
    AutoPrintLossless(t);
    if d.offset == UTC {
      ToOwnOffset(d);
    }
  }

  lemma AutoPrintLossless(t: Timestamp)
    requires t.offset == 0 && t.nano % 1_000_000 == 0 && 1 <= t.year <= MaxYear
    ensures Parse(AUTO, Print(AutoShape(t), t)) == Some(t)
  {
    PrintParseRoundTrip(AUTO, AutoShape(t), t);
    AutoShapeIsCoarsestExact(t, AutoShape(t));
  }

  /** Printing a shape reads only the fields the shape keeps. */
  lemma PrintTruncate(shape: Shape, d: Timestamp)
    ensures Print(shape, Truncate(shape, d)) == Print(shape, d)
  {
    MillisScale(MilliOfSecond(d));
  }

  /** format, parse, format gives the text of the first format (AUTO, whatever the precision). */
  lemma AutoFormatIdempotent(d: Timestamp)
    requires 1 <= ToOffset(d, UTC).year <= MaxYear
    ensures var r := Parse(AUTO, Format(AUTO, d));
      r.Some? && Format(AUTO, r.value) == Format(AUTO, d)
  {
    var t := Shown(AUTO, d);
    var shape := AutoShape(t);
    PrintParseRoundTrip(AUTO, shape, t);
    var u := Truncate(shape, t);
    MillisScale(MilliOfSecond(t));
    assert AutoShape(u) == shape;
    ToOwnOffset(u);
    assert Shown(AUTO, u) == u;
    PrintTruncate(shape, t);
  }

  /**
   * The correction changes nothing for fixed patterns, for a non-UTC target zone, or for a value
   * already at UTC: the two definitions differ only in AUTO's choice for a UTC target.
   */
  lemma FormatAgreesWithAsWritten(f: W3CDateFormat, d: Timestamp)
    requires !f.isAuto || f.timeZone != UTC || d.offset == UTC
    ensures Format(f, d) == FormatAsWritten(f, d)
  {
    if f.timeZone != UTC {
      ToOwnOffset(ToOffset(d, f.timeZone));
    } else if f.isAuto {
      ToOwnOffset(d);
    }
  }

  /** AUTO reads milli-of-second, so nanoseconds below one millisecond never reach the text. */
  lemma SubMillisecondsIgnored(d: Timestamp)
    requires d.offset == UTC && d.nano < 1_000_000
    ensures AutoShape(d) != Millisecond
    ensures Format(AUTO, d) == Format(AUTO, d.(nano := 0))
  {
    var z: Timestamp := d.(nano := 0);
    ToOwnOffset(d);
    ToOwnOffset(z);
    assert Shown(AUTO, d) == d && Shown(AUTO, z) == z;
  }

  // ---------------------------------------------------------------- examples

  const Epoch: Timestamp := DateTime(1970, 1, 1, 0, 0, 0, 0, 0)

  lemma EpochPieces()
    ensures YearText(1970) == "1970" && Pad2(1) == "01" && Pad2(0) == "00" && ZoneText(0) == "Z"
  {
    assert Pad2(19) == "19" && Pad2(70) == "70";
  }

  /** The epoch under SECOND in UTC, as written and corrected alike. */
  lemma EpochAsSecond()
    ensures FormatAsWritten(SECOND, Epoch) == "1970-01-01T00:00:00Z"
    ensures Format(SECOND, Epoch) == "1970-01-01T00:00:00Z"
  {
    ToOwnOffset(Epoch);
    assert Shown(SECOND, Epoch) == Epoch;
    EpochPieces();
    FormatAgreesWithAsWritten(SECOND, Epoch);
  }

  /** The epoch under AUTO in UTC, as written and corrected alike: exact midnight, so the DAY shape. */
  lemma EpochAsAuto()
    ensures FormatAsWritten(AUTO, Epoch) == "1970-01-01"
    ensures Format(AUTO, Epoch) == "1970-01-01"
  {
    ToOwnOffset(Epoch);
    assert Shown(AUTO, Epoch) == Epoch;
    EpochPieces();
    FormatAgreesWithAsWritten(AUTO, Epoch);
  }

  /** A bare year parses with every omitted field at its default: January 1st, midnight, UTC. */
  lemma ParseYearDefaults()
    ensures Parse(AUTO, "2009") == Some(DateTime(2009, 1, 1, 0, 0, 0, 0, 0))
  {
    assert Pad4(2009) == "2009";
    YearAtPadded(2009, "");
    assert Pad4(2009) + "" == "2009";
    assert DaysInMonth(2009, 1) == 31;
  }

  /** A year of five digits without a sign is malformed. */
  lemma ParseRejectsLongYear()
    ensures Parse(AUTO, "20090") == None
  {
    assert DigitRun("20090", 0, 19) == 5;
  }

  /** A month of one digit is malformed: the month section is skipped and the text is not used up. */
  lemma ParseRejectsShortMonth()
    ensures Parse(AUTO, "2009-6-01") == None
  {
    assert Pad4(2009) == "2009";
    YearAtPadded(2009, "-6-01");
    assert Pad4(2009) + "-6-01" == "2009-6-01";
    assert TwoAt("-6-01", '-') == None;
  }

  /** A time separator with no hour after it is malformed. */
  lemma ParseRejectsDanglingTime()
    ensures Parse(AUTO, "2009-06-01T") == None
  {
    assert Pad4(2009) == "2009";
    YearAtPadded(2009, "-06-01T");
    assert Pad4(2009) + "-06-01T" == "2009-06-01T";
    var p := ScanDate("-06-01T", 2009);
    ScanDateLeavesTime();
    assert TwoAt(p.rest, 'T') == None;
    assert ZoneAt(p.rest) == None;
  }

  lemma ScanDateLeavesTime()
    ensures ScanDate("-06-01T", 2009).rest == "T"
  {
    assert Pad2(6) == "06" && Pad2(1) == "01";
    TwoAtField('-', 6, "-01T");
    TwoAtField('-', 1, "T");
    assert Field('-', Pad2(6)) + "-01T" == "-06-01T";
    assert Field('-', Pad2(1)) + "T" == "-01T";
  }

  /** A month past December does not resolve. */
  lemma ParseRejectsMonth13()
    ensures Parse(AUTO, "2009-13") == None
  {
    assert Pad4(2009) == "2009";
    YearAtPadded(2009, "-13");
    assert Pad4(2009) + "-13" == "2009-13";
    assert TwoAt("-13", '-') == Some(13);
  }

  /** Midnight of 2020-01-01 at +01:00, and one hour later. */
  const NewYearCet: Timestamp := DateTime(2020, 1, 1, 0, 0, 0, 0, 60)
  const NewYearCetOneAm: Timestamp := DateTime(2020, 1, 1, 1, 0, 0, 0, 60)
  const LastHourOf2019: Timestamp := DateTime(2019, 12, 31, 23, 0, 0, 0, 0)
  const LastDayOf2019: Timestamp := DateTime(2019, 12, 31, 0, 0, 0, 0, 0)
  const NewYearUtc: Timestamp := DateTime(2020, 1, 1, 0, 0, 0, 0, 0)

  lemma ExampleDigits()
    ensures YearText(2019) == "2019" && YearText(2020) == "2020"
    ensures Pad2(0) == "00" && Pad2(1) == "01" && Pad2(12) == "12" && Pad2(23) == "23" && Pad2(31) == "31"
    ensures ZoneText(0) == "Z"
  {
    assert Pad2(19) == "19" && Pad2(20) == "20";
  }

  lemma ExampleTexts()
    ensures Print(Day, LastHourOf2019) == "2019-12-31"
    ensures Print(Minute, LastHourOf2019) == "2019-12-31T23:00Z"
    ensures Print(Minute, NewYearUtc) == "2020-01-01T00:00Z"
    ensures Print(Day, NewYearUtc) == "2020-01-01"
  {
    LastHourOf2019Texts();
    NewYearUtcTexts();
  }

  lemma LastHourOf2019Texts()
    ensures Print(Day, LastHourOf2019) == "2019-12-31"
    ensures Print(Minute, LastHourOf2019) == "2019-12-31T23:00Z"
  {
    ExampleDigits();
  }

  lemma NewYearUtcTexts()
    ensures Print(Minute, NewYearUtc) == "2020-01-01T00:00Z"
    ensures Print(Day, NewYearUtc) == "2020-01-01"
  {
    ExampleDigits();
  }

  lemma NewYearCetInUtc()
    ensures ToOffset(NewYearCet, UTC) == LastHourOf2019
  {
    assert -60 / 1440 == -1 && -60 % 1440 == 1380 && 1380 / 60 == 23 && 1380 % 60 == 0;
    var previous := PreviousDay(NewYearCet);
    assert previous == NewYearCet.(year := 2019, month := 12, day := 31);
    assert ShiftDays(NewYearCet, -1) == ShiftDays(previous, 0) == previous;
  }

  lemma OneAmCetInUtc()
    ensures ToOffset(NewYearCetOneAm, UTC) == NewYearUtc
  {
  }

  /**
   * As written, AUTO in UTC picks DAY from the +01:00 fields but prints the UTC date: the text
   * names a day that starts 23 hours before the instant formatted.
   */
  lemma AsWrittenAutoLosesTime()
    ensures FormatAsWritten(AUTO, NewYearCet) == "2019-12-31"
    ensures Parse(AUTO, "2019-12-31") == Some(LastDayOf2019)
    ensures InstantMinutes(LastDayOf2019) == InstantMinutes(NewYearCet) - 23 * 60
  {
    NewYearCetInUtc();
    ExampleTexts();
    assert AutoShape(NewYearCet) == Day;
    PrintParseRoundTrip(AUTO, Day, LastHourOf2019);
  }

  /** As written, AUTO is not idempotent for a value whose own offset is not UTC. */
  lemma AsWrittenAutoNotIdempotent()
    ensures FormatAsWritten(AUTO, NewYearCetOneAm) == "2020-01-01T00:00Z"
    ensures Parse(AUTO, "2020-01-01T00:00Z") == Some(NewYearUtc)
    ensures FormatAsWritten(AUTO, NewYearUtc) == "2020-01-01"
  {
    OneAmCetInUtc();
    ExampleTexts();
    ToOwnOffset(NewYearUtc);
    assert AutoShape(NewYearCetOneAm) == Minute && AutoShape(NewYearUtc) == Day;
    PrintParseRoundTrip(AUTO, Minute, NewYearUtc);
  }

  /** The corrected format prints the same instant: 23:00 on the last day of 2019, UTC. */
  lemma AutoKeepsTime()
    ensures Format(AUTO, NewYearCet) == "2019-12-31T23:00Z"
  {
    NewYearCetInUtc();
    assert Shown(AUTO, NewYearCet) == LastHourOf2019;
    assert AutoShape(LastHourOf2019) == Minute;
    ExampleTexts();
  }
}
