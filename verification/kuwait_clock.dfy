/** The timestamp put into the SQL prompt: the current instant read at the fixed
    offset UTC+3 (Kuwait) and rendered as `YYYY-MM-DD HH:MM:SS`. The clock reading
    itself is a parameter: it is the UTC civil time of the instant. */
module KuwaitClock {

  /** A civil date and time of day to whole seconds. */
  datatype DateTime = DateTime(year: int, month: int, day: int, hour: int, minute: int, second: int)

  /** The offset of KUWAIT_TZ from UTC, in hours. */
  const OffsetHours: int := 3

  /** The largest year Python's datetime can represent. */
  const MaxYear: int := 9999

  predicate IsLeapYear(y: int)
  {
    y % 4 == 0 && (y % 100 != 0 || y % 400 == 0)
  }

  function DaysInMonth(y: int, m: int): (n: int)
    requires 1 <= m <= 12
    ensures 28 <= n <= 31
  {
    if m == 2 then (if IsLeapYear(y) then 29 else 28)
    else if m == 4 || m == 6 || m == 9 || m == 11 then 30
    else 31
  }

  function YearLength(y: int): int
  {
    if IsLeapYear(y) then 366 else 365
  }

  /** A proleptic Gregorian date and time from year 1 onwards. */
  predicate Valid(t: DateTime)
  {
    1 <= t.year && 1 <= t.month <= 12 && 1 <= t.day <= DaysInMonth(t.year, t.month)
    && 0 <= t.hour < 24 && 0 <= t.minute < 60 && 0 <= t.second < 60
  }

  /** The calendar day after `t`, same time of day. */
  function NextDay(t: DateTime): DateTime
    requires Valid(t)
  {
    if t.day < DaysInMonth(t.year, t.month) then t.(day := t.day + 1)
    else if t.month < 12 then t.(month := t.month + 1, day := 1)
    else t.(year := t.year + 1, month := 1, day := 1)
  }

  /** `datetime.now(KUWAIT_TZ)` for the instant whose UTC civil time is `utc`:
      three hours later, carrying into the next day, month or year. */
  function ToKuwait(utc: DateTime): (local: DateTime)
    requires Valid(utc)
    ensures Valid(local)
    ensures local.minute == utc.minute && local.second == utc.second
  {
    if utc.hour + OffsetHours < 24 then utc.(hour := utc.hour + OffsetHours)
    else NextDay(utc).(hour := utc.hour + OffsetHours - 24)
  }

  /** A UTC reading whose Kuwait time Python can represent (it raises past year 9999). */
  predicate InRange(utc: DateTime)
  {
    Valid(utc) && utc.year <= MaxYear && ToKuwait(utc).year <= MaxYear
  }

  // ---- Counting seconds from 0001-01-01 00:00:00, to state what the offset means ----

  function DaysBeforeYear(y: int): int
    requires 1 <= y
  {
    if y == 1 then 0 else DaysBeforeYear(y - 1) + YearLength(y - 1)
  }

  function DaysBeforeMonth(y: int, m: int): int
    requires 1 <= m <= 12
  {
    if m == 1 then 0 else DaysBeforeMonth(y, m - 1) + DaysInMonth(y, m - 1)
  }

  function DayNumber(t: DateTime): int
    requires Valid(t)
  {
    DaysBeforeYear(t.year) + DaysBeforeMonth(t.year, t.month) + t.day - 1
  }

  /** Seconds elapsed since 0001-01-01 00:00:00 of the same clock. */
  function SecondNumber(t: DateTime): int
    requires Valid(t)
  {
    ((DayNumber(t) * 24 + t.hour) * 60 + t.minute) * 60 + t.second
  }

  /** The eleven months before December fill the year minus December's 31 days. */
  lemma DaysBeforeDecember(y: int)
    ensures DaysBeforeMonth(y, 12) + 31 == YearLength(y)
  {
    assert DaysBeforeMonth(y, 2) == 31;
    assert DaysBeforeMonth(y, 3) == 31 + DaysInMonth(y, 2);
    assert DaysBeforeMonth(y, 4) == 62 + DaysInMonth(y, 2);
    assert DaysBeforeMonth(y, 5) == 92 + DaysInMonth(y, 2);
    assert DaysBeforeMonth(y, 6) == 123 + DaysInMonth(y, 2);
    assert DaysBeforeMonth(y, 7) == 153 + DaysInMonth(y, 2);
    assert DaysBeforeMonth(y, 8) == 184 + DaysInMonth(y, 2);
    assert DaysBeforeMonth(y, 9) == 215 + DaysInMonth(y, 2);
    assert DaysBeforeMonth(y, 10) == 245 + DaysInMonth(y, 2);
    assert DaysBeforeMonth(y, 11) == 276 + DaysInMonth(y, 2);
    assert DaysBeforeMonth(y, 12) == 306 + DaysInMonth(y, 2);
  }

  /** The next calendar day is a valid date exactly one day later. */
  lemma NextDayIsOneDayLater(t: DateTime)
    requires Valid(t)
    ensures Valid(NextDay(t))
    ensures DayNumber(NextDay(t)) == DayNumber(t) + 1
  {
    if t.day == DaysInMonth(t.year, t.month) && t.month == 12 {
      DaysBeforeDecember(t.year);
    }
  }

  /** The Kuwait reading names the same instant as the UTC one, three hours ahead. */
  lemma {:induction false} KuwaitIsThreeHoursAhead(utc: DateTime)
    requires Valid(utc)
    ensures SecondNumber(ToKuwait(utc)) == SecondNumber(utc) + OffsetHours * 3600
  {
    if utc.hour + OffsetHours >= 24 {
      NextDayIsOneDayLater(utc);
    }
  }

  // ---- strftime("%Y-%m-%d %H:%M:%S") ----

  predicate IsDigit(c: char)
  {
    '0' <= c <= '9'
  }

  function Pow10(w: nat): (p: nat)
    ensures p >= 1
  {
    if w == 0 then 1 else 10 * Pow10(w - 1)
  }

  /** The last `width` decimal digits of `n`, zero-padded on the left. */
  function Pad(n: nat, width: nat): (r: string)
    ensures |r| == width
    ensures forall i :: 0 <= i < width ==> IsDigit(r[i])
  {
    if width == 0 then "" else Pad(n / 10, width - 1) + [('0' as int + n % 10) as char]
  }

  /** The number a string of decimal digits denotes. */
  function DigitsValue(s: string): nat
    requires forall i :: 0 <= i < |s| ==> IsDigit(s[i])
  {
    if s == [] then 0
    else assert IsDigit(s[|s| - 1]); DigitsValue(s[..|s| - 1]) * 10 + (s[|s| - 1] as int - '0' as int)
  }

  /** Padding loses nothing when the number fits the width. */
  lemma {:induction false} PadValue(n: nat, width: nat)
    requires n < Pow10(width)
    ensures DigitsValue(Pad(n, width)) == n
  {
    if width > 0 {
      PadValue(n / 10, width - 1);
      var r := Pad(n, width);
      assert r[..|r| - 1] == Pad(n / 10, width - 1);
    }
  }

  /** Nineteen characters, digits everywhere except the five separator positions. */
  predicate IsTimestampShape(s: string)
  {
    |s| == 19
    && forall i :: 0 <= i < 19 && i != 4 && i != 7 && i != 10 && i != 13 && i != 16 ==> IsDigit(s[i])
  }

  /** `now.strftime("%Y-%m-%d %H:%M:%S")`. */
  function Format(t: DateTime): (r: string)
    requires Valid(t) && t.year <= MaxYear
    ensures IsTimestampShape(r)
    ensures r[4] == '-' && r[7] == '-' && r[10] == ' ' && r[13] == ':' && r[16] == ':'
  {
    Pad(t.year, 4) + "-" + Pad(t.month, 2) + "-" + Pad(t.day, 2) + " "
      + Pad(t.hour, 2) + ":" + Pad(t.minute, 2) + ":" + Pad(t.second, 2)
  }

  /** Reads the six numeric fields back out of a formatted timestamp. */
  function Parse(s: string): DateTime
    requires IsTimestampShape(s)
  {
    DateTime(DigitsValue(s[0..4]), DigitsValue(s[5..7]), DigitsValue(s[8..10]),
             DigitsValue(s[11..13]), DigitsValue(s[14..16]), DigitsValue(s[17..19]))
  }

  /** The rendering is faithful: every field can be read back. */
  lemma FormatRoundTrip(t: DateTime)
    requires Valid(t) && t.year <= MaxYear
    ensures Parse(Format(t)) == t
  {
    var r := Format(t);
    assert r[0..4] == Pad(t.year, 4);
    assert r[5..7] == Pad(t.month, 2);
    assert r[8..10] == Pad(t.day, 2);
    assert r[11..13] == Pad(t.hour, 2);
    assert r[14..16] == Pad(t.minute, 2);
    assert r[17..19] == Pad(t.second, 2);
    PadValue(t.year, 4);
    PadValue(t.month, 2);
    PadValue(t.day, 2);
    PadValue(t.hour, 2);
    PadValue(t.minute, 2);
    PadValue(t.second, 2);
  }

  /** `_get_kuwait_time()` for the clock reading `utc`. */
  function KuwaitTime(utc: DateTime): (r: string)
    requires InRange(utc)
    ensures IsTimestampShape(r)
  {
    Format(ToKuwait(utc))
  }

  /** The stamp reads back as the Kuwait wall-clock time of `utc`. */
  lemma KuwaitTimeReadsBack(utc: DateTime)
    requires InRange(utc)
    ensures Parse(KuwaitTime(utc)) == ToKuwait(utc)
  {
    FormatRoundTrip(ToKuwait(utc));
  }
}
