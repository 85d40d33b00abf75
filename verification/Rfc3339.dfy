/**
 Unix seconds to the RFC 3339 text that `datetime.fromtimestamp(ts, tz=UTC).isoformat()` writes
 (proleptic Gregorian calendar, years 1 to 9999), and a reader for that text (section 5.6 of RFC 3339).
 */
module Rfc3339 {
  import opened Wrappers
  import opened Decimal

  const EPOCH_ORDINAL := 719163
  const MAX_ORDINAL := 3652059
  const SECONDS_PER_DAY := 86400
  const MIN_SECOND: int := (1 - EPOCH_ORDINAL) * SECONDS_PER_DAY
  const END_SECOND: int := (MAX_ORDINAL + 1 - EPOCH_ORDINAL) * SECONDS_PER_DAY

  predicate Representable(ts: int) {
    MIN_SECOND <= ts < END_SECOND
  }

  // ----- Calendar -----

  predicate IsLeap(y: int) {
    y % 4 == 0 && (y % 100 != 0 || y % 400 == 0)
  }

  function DaysInMonth(y: int, m: int): (n: int)
    ensures 28 <= n <= 31
  {
    if m == 2 then (if IsLeap(y) then 29 else 28)
    else if m == 4 || m == 6 || m == 9 || m == 11 then 30
    else 31
  }

  /** Days before the first of January of year `y`, counted from year 1. */
  function DaysBeforeYear(y: int): int {
    365 * (y - 1) + (y - 1) / 4 - (y - 1) / 100 + (y - 1) / 400
  }

  function DaysBeforeMonth(y: int, m: nat): nat
    requires 1 <= m
  {
    if m == 1 then 0 else DaysBeforeMonth(y, m - 1) + DaysInMonth(y, m - 1)
  }

  datatype Date = Date(year: nat, month: nat, day: nat) {
    predicate Valid() {
      1 <= year && 1 <= month <= 12 && 1 <= day <= DaysInMonth(year, month)
    }

    /** The proleptic Gregorian ordinal: day 1 is 0001-01-01. */
    function Ordinal(): int
      requires Valid()
    {
      DaysBeforeYear(year) + DaysBeforeMonth(year, month) + day
    }
  }

  lemma CycleEnds(y: int)
    ensures y / 4 == (y - 1) / 4 + (if y % 4 == 0 then 1 else 0)
    ensures y / 100 == (y - 1) / 100 + (if y % 100 == 0 then 1 else 0)
    ensures y / 400 == (y - 1) / 400 + (if y % 400 == 0 then 1 else 0)
    ensures (y % 400 == 0 ==> y % 100 == 0) && (y % 100 == 0 ==> y % 4 == 0)
  {
  }

  lemma YearLength(y: int)
    requires 1 <= y
    ensures DaysBeforeYear(y + 1) == DaysBeforeYear(y) + 365 + (if IsLeap(y) then 1 else 0)
  {
    CycleEnds(y);
  }

  lemma MonthsFillYear(y: int)
    ensures DaysBeforeMonth(y, 12) + 31 == 365 + (if IsLeap(y) then 1 else 0)
  {
    assert DaysBeforeMonth(y, 2) == 31;
    assert DaysBeforeMonth(y, 3) == 31 + DaysInMonth(y, 2);
    assert DaysBeforeMonth(y, 5) == DaysBeforeMonth(y, 3) + 61;
    assert DaysBeforeMonth(y, 7) == DaysBeforeMonth(y, 5) + 61;
    assert DaysBeforeMonth(y, 9) == DaysBeforeMonth(y, 7) + 62;
    assert DaysBeforeMonth(y, 11) == DaysBeforeMonth(y, 9) + 61;
  }

  function YearFrom(n: int, y: nat): (r: nat)
    requires 1 <= y && DaysBeforeYear(y) < n
    ensures 1 <= r && DaysBeforeYear(r) < n <= DaysBeforeYear(r + 1)
    decreases n - DaysBeforeYear(y)
  {
    YearLength(y);
    if n <= DaysBeforeYear(y + 1) then y else YearFrom(n, y + 1)
  }

  function MonthFrom(y: nat, n: int, m: nat): (r: nat)
    requires 1 <= m <= 12 && DaysBeforeMonth(y, m) < n <= DaysBeforeMonth(y, 12) + 31
    ensures 1 <= r <= 12 && 1 <= n - DaysBeforeMonth(y, r) <= DaysInMonth(y, r)
    decreases 12 - m
  {
    if n <= DaysBeforeMonth(y, m) + DaysInMonth(y, m) then m else MonthFrom(y, n, m + 1)
  }

  /** The calendar date of an ordinal, searched for from year 1 and from January. */
  function DateOf(n: int): (d: Date)
    requires 1 <= n
    ensures d.Valid() && d.Ordinal() == n
  {
    var y := YearFrom(n, 1);
    YearLength(y);
    MonthsFillYear(y);
    var rest := n - DaysBeforeYear(y);
    var m := MonthFrom(y, rest, 1);
    Date(y, m, rest - DaysBeforeMonth(y, m))
  }

  lemma {:induction false} DaysBeforeYearMonotone(y: nat, z: nat)
    requires 1 <= y <= z
    ensures DaysBeforeYear(y) <= DaysBeforeYear(z)
    decreases z - y
  {
    if y == z {
    } else {
      YearLength(y);
      DaysBeforeYearMonotone(y + 1, z);
    }
  }

  lemma {:induction false} DaysBeforeMonthMonotone(y: int, m: nat, k: nat)
    requires 1 <= m < k <= 13
    ensures DaysBeforeMonth(y, m) + DaysInMonth(y, m) <= DaysBeforeMonth(y, k)
    decreases k
  {
    if m + 1 == k {
    } else {
      DaysBeforeMonthMonotone(y, m, k - 1);
    }
  }

  lemma DayOfYear(d: Date)
    requires d.Valid()
    ensures 0 < d.Ordinal() - DaysBeforeYear(d.year)
    ensures d.Ordinal() <= DaysBeforeYear(d.year + 1)
  {
    YearLength(d.year);
    MonthsFillYear(d.year);
    if d.month < 12 {
      DaysBeforeMonthMonotone(d.year, d.month, 12);
    }
  }

  lemma EarlierYear(d: Date, e: Date)
    requires d.Valid() && e.Valid() && d.year < e.year
    ensures d.Ordinal() < e.Ordinal()
  {
    hide DaysBeforeYear, DaysBeforeMonth;
    DayOfYear(d);
    DayOfYear(e);
    DaysBeforeYearMonotone(d.year + 1, e.year);
  }

  lemma EarlierMonth(d: Date, e: Date)
    requires d.Valid() && e.Valid() && d.year == e.year && d.month < e.month
    ensures d.Ordinal() < e.Ordinal()
  {
    hide DaysBeforeYear, DaysBeforeMonth;
    DaysBeforeMonthMonotone(d.year, d.month, e.month);
  }

  /** No two dates have the same ordinal. */
  lemma OrdinalIsUnique(d: Date, e: Date)
    requires d.Valid() && e.Valid() && d.Ordinal() == e.Ordinal()
    ensures d == e
  {
    hide DaysBeforeYear, DaysBeforeMonth, DaysInMonth;
    if d.year < e.year {
      EarlierYear(d, e);
    } else if e.year < d.year {
      EarlierYear(e, d);
    } else if d.month < e.month {
      EarlierMonth(d, e);
    } else if e.month < d.month {
      EarlierMonth(e, d);
    }
  }

  /** The last day of a month, as the rhyme has it. */
  predicate IsMonthEnd(d: Date) {
    if d.month == 4 || d.month == 6 || d.month == 9 || d.month == 11 then d.day == 30
    else if d.month != 2 then d.day == 31
    else if d.year % 400 == 0 || (d.year % 4 == 0 && d.year % 100 != 0) then d.day == 29
    else d.day == 28
  }

  function DayAfter(d: Date): Date {
    if !IsMonthEnd(d) then d.(day := d.day + 1)
    else if d.month < 12 then Date(d.year, d.month + 1, 1)
    else Date(d.year + 1, 1, 1)
  }

  lemma LeapYears(y: int)
    ensures IsLeap(y) <==> y % 400 == 0 || (y % 4 == 0 && y % 100 != 0)
  {
    CycleEnds(y);
  }

  lemma DayAfterIsNext(d: Date)
    requires d.Valid()
    ensures DayAfter(d).Valid() && DayAfter(d).Ordinal() == d.Ordinal() + 1
  {
    hide DaysBeforeYear, IsLeap;
    LeapYears(d.year);
    if d.month == 12 {
      YearLength(d.year);
      MonthsFillYear(d.year);
    }
  }

  /** Day follows day as in the calendar: within a month, into the next month, and into the next year. */
  lemma DayFollowsDay(n: int)
    requires 1 <= n
    ensures DateOf(n + 1) == DayAfter(DateOf(n))
  {
    hide DateOf, DayAfter, DaysBeforeYear, DaysBeforeMonth, DaysInMonth;
    DayAfterIsNext(DateOf(n));
    OrdinalIsUnique(DayAfter(DateOf(n)), DateOf(n + 1));
  }

  // ----- Text -----

  /** `n` in exactly `width` digits, zero padded. */
  function Padded(n: nat, width: nat): (s: string)
    ensures |s| == width
  {
    if width == 0 then "" else Padded(n / 10, width - 1) + [Digit(n % 10)]
  }

  function Power10(width: nat): nat {
    if width == 0 then 1 else 10 * Power10(width - 1)
  }

  lemma {:induction false} PaddedReadsBack(n: nat, width: nat)
    requires n < Power10(width)
    ensures NatValue(Padded(n, width)) == n
  {
    if width == 0 {
    } else {
      PaddedReadsBack(n / 10, width - 1);
      assert Padded(n, width)[..width - 1] == Padded(n / 10, width - 1);
    }
  }

  /** Date and second of the day, in the layout of `datetime.isoformat` without microseconds. */
  function IsoText(date: Date, second: nat): string {
    Padded(date.year, 4) + "-" + Padded(date.month, 2) + "-" + Padded(date.day, 2) + "T"
    + Padded(second / 3600, 2) + ":" + Padded(second / 60 % 60, 2) + ":" + Padded(second % 60, 2) + "+00:00"
  }

  function IsoUtc(ts: int): string
    requires Representable(ts)
  {
    IsoText(DateOf(ts / SECONDS_PER_DAY + EPOCH_ORDINAL), ts % SECONDS_PER_DAY)
  }

  function Natural(n: int): nat {
    if n < 0 then 0 else n
  }

  /** Reads `YYYY-MM-DDTHH:MM:SS+00:00` as a number of seconds since the epoch. */
  function ReadIso(s: string): Option<int> {
    if |s| != 25 || s[19..] != "+00:00" then None else
      var date := Date(Natural(NatValue(s[..4])), Natural(NatValue(s[5..7])), Natural(NatValue(s[8..10])));
      if !date.Valid() then None else
        Some((date.Ordinal() - EPOCH_ORDINAL) * SECONDS_PER_DAY
             + NatValue(s[11..13]) * 3600 + NatValue(s[14..16]) * 60 + NatValue(s[17..19]))
  }

  lemma IsoLayout(date: Date, second: nat)
    ensures var s := IsoText(date, second);
            && |s| == 25 && s[19..] == "+00:00"
            && s[..4] == Padded(date.year, 4) && s[5..7] == Padded(date.month, 2) && s[8..10] == Padded(date.day, 2)
            && s[11..13] == Padded(second / 3600, 2) && s[14..16] == Padded(second / 60 % 60, 2)
            && s[17..19] == Padded(second % 60, 2) && s[13] == s[16] == ':'
  {
  }

  lemma YearFitsFourDigits(date: Date)
    requires date.Valid() && date.Ordinal() <= MAX_ORDINAL
    ensures date.year <= 9999
  {
    if date.year >= 10000 {
      DaysBeforeYearMonotone(10000, date.year);
    }
  }

  lemma SecondOfDay(second: nat)
    requires second < SECONDS_PER_DAY
    ensures second / 3600 * 3600 + second / 60 % 60 * 60 + second % 60 == second
    ensures second / 3600 < 24
  {
    assert second / 3600 == second / 60 / 60;
  }

  lemma TextReadsBack(date: Date, second: nat)
    requires date.Valid() && date.Ordinal() <= MAX_ORDINAL && second < SECONDS_PER_DAY
    ensures ReadIso(IsoText(date, second)) == Some((date.Ordinal() - EPOCH_ORDINAL) * SECONDS_PER_DAY + second)
  {
    hide IsoText, Padded, DaysBeforeYear, DaysBeforeMonth, NatValue;
    IsoLayout(date, second);
    YearFitsFourDigits(date);
    SecondOfDay(second);
    assert Power10(2) == 100;
    assert Power10(4) == 100 * Power10(2);
    PaddedReadsBack(date.year, 4);
    PaddedReadsBack(date.month, 2);
    PaddedReadsBack(date.day, 2);
    PaddedReadsBack(second / 3600, 2);
    PaddedReadsBack(second / 60 % 60, 2);
    PaddedReadsBack(second % 60, 2);
  }

  /** The rendered time reads back to the second it was made from. */
  lemma IsoReadsBack(ts: int)
    requires Representable(ts)
    ensures ReadIso(IsoUtc(ts)) == Some(ts)
  {
    hide DateOf, IsoText, ReadIso;
    TextReadsBack(DateOf(ts / SECONDS_PER_DAY + EPOCH_ORDINAL), ts % SECONDS_PER_DAY);
  }

  lemma WholeHourSecond(ts: int)
    requires ts % 3600 == 0
    ensures var second := ts % SECONDS_PER_DAY; second / 60 % 60 == 0 && second % 60 == 0
  {
    var second := ts % SECONDS_PER_DAY;
    var hours := ts / 3600;
    assert ts == hours * 3600;
    assert second == hours % 24 * 3600;
  }

  /** On an hour boundary the minutes and the seconds are written `00`. */
  lemma WholeHourText(ts: int)
    requires Representable(ts) && ts % 3600 == 0
    ensures |IsoUtc(ts)| == 25 && IsoUtc(ts)[13..19] == ":00:00"
  {
    var date, second := DateOf(ts / SECONDS_PER_DAY + EPOCH_ORDINAL), ts % SECONDS_PER_DAY;
    WholeHourSecond(ts);
    IsoLayout(date, second);
    var s := IsoText(date, second);
    assert Padded(0, 1) == "0" && Padded(0, 2) == "00";
    assert s[13..19] == [s[13]] + s[14..16] + [s[16]] + s[17..19];
  }

  lemma NewYear(year: nat)
    requires 1 <= year
    ensures DaysBeforeYear(year) + 1 >= 1 && DateOf(DaysBeforeYear(year) + 1) == Date(year, 1, 1)
  {
    hide DateOf;
    DaysBeforeYearMonotone(1, year);
    OrdinalIsUnique(DateOf(DaysBeforeYear(year) + 1), Date(year, 1, 1));
  }

  lemma YearsInDigits()
    ensures Padded(1970, 4) == "1970" && Padded(2026, 4) == "2026" && Padded(0, 2) == "00" && Padded(1, 2) == "01"
  {
    assert Padded(1, 1) == "1" && Padded(19, 2) == "19" && Padded(197, 3) == "197";
    assert Padded(2, 1) == "2" && Padded(20, 2) == "20" && Padded(202, 3) == "202";
    assert Padded(0, 1) == "0";
  }

  lemma NewYearText(year: nat)
    ensures IsoText(Date(year, 1, 1), 0) == Padded(year, 4) + "-01-01T00:00:00+00:00"
  {
    YearsInDigits();
    hide Padded;
  }

  lemma NewYearSecond(year: nat, ts: int)
    requires 1 <= year && Representable(ts) && ts % SECONDS_PER_DAY == 0
    requires ts / SECONDS_PER_DAY + EPOCH_ORDINAL == DaysBeforeYear(year) + 1
    ensures IsoUtc(ts) == Padded(year, 4) + "-01-01T00:00:00+00:00"
  {
    hide DateOf, IsoText, Padded, DaysBeforeYear;
    NewYear(year);
    NewYearText(year);
  }

  /** The first and the last second that can be written. */
  lemma KnownRange(ts: int)
    ensures Representable(ts) <==> -62135596800 <= ts <= 253402300799
  {
  }

  /** The epoch, and the start of 2026, where they belong. */
  lemma KnownTimes()
    ensures Representable(0) && IsoUtc(0) == "1970-01-01T00:00:00+00:00"
    ensures Representable(1767225600) && IsoUtc(1767225600) == "2026-01-01T00:00:00+00:00"
  {
    hide IsoUtc, Padded;
    assert DaysBeforeYear(1970) == 719162 && DaysBeforeYear(2026) == 739616;
    NewYearSecond(1970, 0);
    NewYearSecond(2026, 1767225600);
    YearsInDigits();
    assert "1970" + "-01-01T00:00:00+00:00" == "1970-01-01T00:00:00+00:00";
    assert "2026" + "-01-01T00:00:00+00:00" == "2026-01-01T00:00:00+00:00";
  }
}
