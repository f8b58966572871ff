/** The proleptic Gregorian calendar and the day-number conversion of the metadata
    timestamp. */
module CivilDates {

  datatype Date = Date(year: int, month: int, day: int)

  // ---------------------------------------------------------------- the calendar

  predicate Leap(y: int) {
    y % 4 == 0 && (y % 100 != 0 || y % 400 == 0)
  }

  function DaysInMonth(y: int, m: int): int
    requires 1 <= m <= 12
  {
    if m == 2 then (if Leap(y) then 29 else 28)
    else if m == 4 || m == 6 || m == 9 || m == 11 then 30 else 31
  }

  predicate ValidDate(d: Date) {
    1 <= d.month <= 12 && 1 <= d.day <= DaysInMonth(d.year, d.month)
  }

  function NextDay(d: Date): Date
    requires ValidDate(d)
  {
    if d.day < DaysInMonth(d.year, d.month) then d.(day := d.day + 1)
    else if d.month < 12 then Date(d.year, d.month + 1, 1)
    else Date(d.year + 1, 1, 1)
  }

  predicate Before(a: Date, b: Date) {
    || a.year < b.year
    || (a.year == b.year && (a.month < b.month || (a.month == b.month && a.day < b.day)))
  }

  /** Days of the months before one. */
  function DaysBefore(y: int, m: int): int
    requires 1 <= m <= 12
  {
    if m == 1 then 0 else DaysBefore(y, m - 1) + DaysInMonth(y, m - 1)
  }

  /** Days from 1 January of year 1 to 1 January of a year. */
  function YearStart(y: int): int {
    365 * (y - 1) + (y - 1) / 4 - (y - 1) / 100 + (y - 1) / 400
  }

  /** Days since 1970-01-01. */
  function DayNumber(d: Date): int
    requires 1 <= d.month <= 12
  {
    YearStart(d.year) - YearStart(1970) + DaysBefore(d.year, d.month) + d.day - 1
  }

  lemma Fourth(y: int)
    ensures y / 4 - (y - 1) / 4 == if y % 4 == 0 then 1 else 0
  {
  }

  lemma Hundredth(y: int)
    ensures y / 100 - (y - 1) / 100 == if y % 100 == 0 then 1 else 0
  {
  }

  lemma FourHundredth(y: int)
    ensures y / 400 - (y - 1) / 400 == if y % 400 == 0 then 1 else 0
  {
  }

  lemma Centuries(y: int)
    ensures y % 100 == 0 ==> y % 4 == 0
    ensures y % 400 == 0 ==> y % 100 == 0
  {
  }

  lemma YearLength(y: int)
    ensures YearStart(y + 1) - YearStart(y) == if Leap(y) then 366 else 365
  {
    Fourth(y);
    Hundredth(y);
    FourHundredth(y);
    Centuries(y);
  }

  lemma MonthTable(y: int)
    ensures DaysBefore(y, 2) == 31 && DaysBefore(y, 3) == (if Leap(y) then 60 else 59)
    ensures forall m :: 3 <= m <= 12 ==> DaysBefore(y, m) == DaysBefore(y, 3) + (153 * (m - 3) + 2) / 5
    ensures DaysBefore(y, 12) + 31 == if Leap(y) then 366 else 365
  {
    assert DaysBefore(y, 2) == 31;
    assert DaysBefore(y, 3) == DaysBefore(y, 2) + DaysInMonth(y, 2);
    assert DaysBefore(y, 4) == DaysBefore(y, 3) + 31;
    assert DaysBefore(y, 5) == DaysBefore(y, 3) + 61;
    assert DaysBefore(y, 6) == DaysBefore(y, 3) + 92;
    assert DaysBefore(y, 7) == DaysBefore(y, 3) + 122;
    assert DaysBefore(y, 8) == DaysBefore(y, 3) + 153;
    assert DaysBefore(y, 9) == DaysBefore(y, 3) + 184;
    assert DaysBefore(y, 10) == DaysBefore(y, 3) + 214;
    assert DaysBefore(y, 11) == DaysBefore(y, 3) + 245;
    assert DaysBefore(y, 12) == DaysBefore(y, 3) + 275;
  }

  /** The closed form counts days: it is 0 on the epoch and rises by one each day. */
  lemma DayNumberCounts(d: Date)
    requires ValidDate(d)
    ensures ValidDate(NextDay(d)) && DayNumber(NextDay(d)) == DayNumber(d) + 1 && Before(d, NextDay(d))
    ensures DayNumber(Date(1970, 1, 1)) == 0
  {
    YearLength(d.year);
    MonthTable(d.year);
  }

  // ---------------------------------------------------------------- the conversion

  /** Division that truncates toward zero. */
  function TruncatedDiv(a: int, b: int): int
    requires b > 0
  {
    if a >= 0 then a / b else -((-a) / b)
  }

  function CivilFromDays(days: int): Date {
    var z := days + 719_468;
    var era := TruncatedDiv(if z >= 0 then z else z - 146_096, 146_097);
    var doe := z - era * 146_097;
    var yoe := Flat(doe) / 365;
    DateOf(yoe + era * 400, doe - Start(yoe))
  }

  /** The date of a day of a year that begins in March. */
  function DateOf(y: int, doy: int): Date {
    var mp := (5 * doy + 2) / 153;
    var d := doy - (153 * mp + 2) / 5 + 1;
    var m := if mp < 10 then mp + 3 else mp - 9;
    Date(if m <= 2 then y + 1 else y, m, d)
  }

  // ---------------------------------------------------------------- years of an era

  /** The day of an era on which its y-th year begins; years are counted from March. */
  function Start(y: int): int {
    365 * y + y / 4 - y / 100
  }

  /** The era's day with its leap days taken out. */
  function Flat(doe: int): int {
    doe - doe / 1460 + doe / 36_524 - doe / 146_096
  }

  lemma StartQuotients(y: int)
    requires 0 <= y < 400
    ensures Start(y) / 1460 == y / 4 && Start(y) / 36_524 == y / 100 && 0 <= Start(y) < 146_096
    ensures y > 0 ==> Start(y) % 1460 != 0
    ensures Flat(Start(y)) == 365 * y
  {
    var q, r, c, t := y / 4, y % 4, y / 100, y % 100;
    assert Start(y) == 1460 * q + (365 * r + q - c) && 0 <= 365 * r + q - c < 1460;
    assert q == 25 * c + t / 4;
    assert Start(y) == 36_524 * c + (365 * t + t / 4) && 0 <= 365 * t + t / 4 < 36_524;
  }

  lemma FlatStep(doe: int)
    requires 0 <= doe < 146_096
    ensures Flat(doe) <= Flat(doe + 1)
    ensures (doe + 1) % 1460 != 0 && doe + 1 < 146_096 ==> Flat(doe) < Flat(doe + 1)
  {
    assert (doe + 1) / 1460 - doe / 1460 == if (doe + 1) % 1460 == 0 then 1 else 0;
    assert (doe + 1) / 36_524 - doe / 36_524 == if (doe + 1) % 36_524 == 0 then 1 else 0;
  }

  lemma {:induction false} FlatGrows(a: int, b: int)
    requires 0 <= a <= b <= 146_096
    ensures Flat(a) <= Flat(b)
    decreases b - a
  {
    if a < b {
      FlatGrows(a, b - 1);
      FlatStep(b - 1);
    }
  }

  /** The year in which a day of the era falls. */
  lemma YearAt(doe: int) returns (y: int)
    requires 0 <= doe < 146_097
    ensures 0 <= y < 400 && Start(y) <= doe && (y < 399 ==> doe < Start(y + 1))
  {
    y := 0;
    while y < 399 && Start(y + 1) <= doe
      invariant 0 <= y < 400 && Start(y) <= doe
    {
      y := y + 1;
    }
  }

  /** The quotient in the conversion is that year. */
  lemma YearOfEra(doe: int)
    requires 0 <= doe < 146_097
    ensures 0 <= Flat(doe) / 365 < 400 && Start(Flat(doe) / 365) <= doe
    ensures Flat(doe) / 365 < 399 ==> doe < Start(Flat(doe) / 365 + 1)
  {
    hide Flat, Start;
    var y := YearAt(doe);
    StartQuotients(y);
    FlatGrows(Start(y), doe);
    if y < 399 {
      StartQuotients(y + 1);
      FlatStep(Start(y + 1) - 1);
      FlatGrows(doe, Start(y + 1) - 1);
    } else {
      LastFlat();
      FlatGrows(doe, 146_096);
    }
    QuotientIs(Flat(doe), y);
  }

  lemma QuotientIs(f: int, y: int)
    requires 365 * y <= f < 365 * (y + 1)
    ensures f / 365 == y
  {
  }

  lemma LastFlat()
    ensures Flat(146_096) == 365 * 400 - 1
  {
  }

  // ---------------------------------------------------------------- months of a year

  /** Length of the mp-th month from March, with February at its longest. */
  function MarchMonth(mp: int): int {
    if mp == 1 || mp == 3 || mp == 6 || mp == 8 then 30 else if mp == 11 then 29 else 31
  }

  lemma MonthOfYear(doy: int)
    requires 0 <= doy < 366
    ensures var mp := (5 * doy + 2) / 153;
            0 <= mp < 12 && 0 <= doy - (153 * mp + 2) / 5 < MarchMonth(mp)
  {
    var mp := (5 * doy + 2) / 153;
    assert 153 * mp <= 5 * doy + 2 < 153 * mp + 153;
    if mp < 3 {
      assert mp == 0 || mp == 1 || mp == 2;
    } else if mp < 6 {
      assert mp == 3 || mp == 4 || mp == 5;
    } else if mp < 9 {
      assert mp == 6 || mp == 7 || mp == 8;
    } else {
      assert mp == 9 || mp == 10 || mp == 11;
    }
  }

  // ---------------------------------------------------------------- the conversion is right

  /** Days from year 1 to the first of March, in the form the conversion uses. */
  lemma MarchStart(y: int)
    ensures YearStart(y) + DaysBefore(y, 3) == YearStart(y + 1) - 306
    ensures YearStart(y + 1) == 365 * y + y / 4 - y / 100 + y / 400
  {
    YearLength(y);
    MonthTable(y);
  }

  lemma EraYears(era: int, yoe: int)
    requires 0 <= yoe < 400
    ensures var y := yoe + era * 400;
            365 * y + y / 4 - y / 100 + y / 400 == 146_097 * era + Start(yoe)
  {
    var y := yoe + era * 400;
    assert y / 4 == 100 * era + yoe / 4;
    assert y / 100 == 4 * era + yoe / 100;
    assert y / 400 == era;
  }

  lemma EraOf(z: int)
    ensures TruncatedDiv(if z >= 0 then z else z - 146_096, 146_097) == z / 146_097
  {
    if z < 0 {
      var n := -(z - 146_096);
      assert n == -z + 146_096;
      var q := n / 146_097;
      assert 146_097 * q <= n < 146_097 * q + 146_097;
      assert 146_097 * (-q) <= z < 146_097 * (-q) + 146_097;
    }
  }

  lemma Remainder4(y: int, k: int)
    ensures (y + 4 * k) % 4 == y % 4
  {
  }

  lemma Remainder100(y: int, k: int)
    ensures (y + 100 * k) % 100 == y % 100
  {
  }

  lemma Remainder400(y: int, k: int)
    ensures (y + 400 * k) % 400 == y % 400
  {
  }

  lemma LeapRepeats(y: int, era: int)
    ensures Leap(y + era * 400) == Leap(y)
  {
    Remainder4(y, 100 * era);
    Remainder100(y, 4 * era);
    Remainder400(y, era);
  }

  /** When the last day of February is the 29th. */
  lemma LeapFebruary(yoe: int)
    requires 0 <= yoe < 400 && (yoe < 399 ==> Start(yoe) + 365 < Start(yoe + 1))
    ensures Leap(yoe + 1)
  {
    if yoe < 399 {
      Fourth(yoe + 1);
      Hundredth(yoe + 1);
    }
  }

  /** For every day number the result is a date of the calendar, and it is that day. */
  lemma CivilIsRight(days: int)
    ensures ValidDate(CivilFromDays(days)) && DayNumber(CivilFromDays(days)) == days
  {
    hide Flat, Start, TruncatedDiv, DateOf, DayNumber, ValidDate, MarchMonth, Leap;
    var z := days + 719_468;
    EraOf(z);
    var era := z / 146_097;
    var doe := z - era * 146_097;
    YearOfEra(doe);
    var yoe := Flat(doe) / 365;
    var doy := doe - Start(yoe);
    YearSpan(yoe);
    if doy == 365 {
      LeapFebruary(yoe);
      LeapRepeats(yoe + 1, era);
    }
    SplitIsDate(era, yoe, doy);
  }

  lemma YearSpan(y: int)
    requires 0 <= y < 400
    ensures y < 399 ==> Start(y + 1) <= Start(y) + 366
    ensures y == 399 ==> Start(y) + 366 == 146_097
  {
  }

  /** A year of an era and a day of that year name a date. */
  lemma SplitIsDate(era: int, yoe: int, doy: int)
    requires 0 <= yoe < 400 && 0 <= doy < 366 && (doy == 365 ==> Leap(yoe + 1 + era * 400))
    ensures var c := DateOf(yoe + era * 400, doy);
            ValidDate(c) && DayNumber(c) == era * 146_097 + Start(yoe) + doy - 719_468
  {
    var y := yoe + era * 400;
    hide YearStart;
    MonthOfYear(doy);
    EraYears(era, yoe);
    MarchStart(y);
    MonthTable(y);
    MonthTable(y + 1);
    EpochStart();
    var mp := (5 * doy + 2) / 153;
    var m := if mp < 10 then mp + 3 else mp - 9;
    if mp < 10 {
      assert DaysBefore(y, m) == DaysBefore(y, 3) + (153 * mp + 2) / 5;
      assert MarchMonth(mp) <= DaysInMonth(y, m);
    } else if mp == 10 {
      assert DaysBefore(y + 1, 1) == 0;
    } else {
      assert doy - 337 < 28 || doy == 365;
    }
  }

  lemma EpochStart()
    ensures YearStart(1970) == 719_162
  {
  }

  // ---------------------------------------------------------------- order and inverse

  lemma {:induction false} YearsGrow(a: int, b: int)
    requires a <= b
    ensures YearStart(a) <= YearStart(b)
    decreases b - a
  {
    if a < b {
      YearLength(b - 1);
      YearsGrow(a, b - 1);
    }
  }

  lemma {:induction false} MonthsGrow(y: int, a: int, b: int)
    requires 1 <= a < b <= 12
    ensures DaysBefore(y, a) + DaysInMonth(y, a) <= DaysBefore(y, b)
    decreases b
  {
    if a < b - 1 {
      MonthsGrow(y, a, b - 1);
    }
  }

  lemma LaterIsGreater(a: Date, b: Date)
    requires ValidDate(a) && ValidDate(b) && Before(a, b)
    ensures DayNumber(a) < DayNumber(b)
  {
    if a.year < b.year {
      hide YearStart;
      YearLength(a.year);
      YearsGrow(a.year + 1, b.year);
      MonthTable(a.year);
      if a.month < 12 {
        MonthsGrow(a.year, a.month, 12);
      }
      if b.month > 1 {
        MonthsGrow(b.year, 1, b.month);
      }
    } else if a.month < b.month {
      MonthsGrow(a.year, a.month, b.month);
    }
  }

  /** The conversion undoes the count on every date, and later days are later dates. */
  lemma CivilInverts(d: Date)
    requires ValidDate(d)
    ensures CivilFromDays(DayNumber(d)) == d
  {
    var c := CivilFromDays(DayNumber(d));
    CivilIsRight(DayNumber(d));
    hide CivilFromDays, DayNumber;
    if Before(c, d) {
      LaterIsGreater(c, d);
    } else if Before(d, c) {
      LaterIsGreater(d, c);
    }
  }

  lemma CivilGrows(a: int, b: int)
    requires a < b
    ensures Before(CivilFromDays(a), CivilFromDays(b))
  {
    CivilIsRight(a);
    CivilIsRight(b);
    var c, d := CivilFromDays(a), CivilFromDays(b);
    hide CivilFromDays, DayNumber;
    if Before(d, c) {
      LaterIsGreater(d, c);
    }
  }

  lemma NextDayFollows(days: int)
    ensures ValidDate(CivilFromDays(days)) && CivilFromDays(days + 1) == NextDay(CivilFromDays(days))
  {
    CivilIsRight(days);
    hide CivilFromDays, DayNumber;
    DayNumberCounts(CivilFromDays(days));
    CivilInverts(NextDay(CivilFromDays(days)));
  }

  // ---------------------------------------------------------------- timestamps

  datatype Timestamp = Timestamp(date: Date, hour: int, minute: int, second: int)

  function Stamp(seconds: nat): Timestamp {
    var tod := seconds % 86_400;
    Timestamp(CivilFromDays(seconds / 86_400), tod / 3600, tod % 3600 / 60, tod % 60)
  }

  lemma TimeOfDay(seconds: nat)
    ensures var tod := seconds % 86_400;
            && 0 <= tod / 3600 < 24 && 0 <= tod % 3600 / 60 < 60 && 0 <= tod % 60 < 60
            && seconds / 86_400 * 86_400 + tod / 3600 * 3600 + tod % 3600 / 60 * 60 + tod % 60 == seconds
  {
    var tod := seconds % 86_400;
    MinuteParts(tod);
  }

  lemma MinuteParts(tod: nat)
    ensures tod % 3600 == tod % 3600 / 60 * 60 + tod % 60
  {
    DropMinutes(60 * (tod / 3600), tod % 3600);
  }

  lemma DropMinutes(k: nat, r: nat)
    ensures (60 * k + r) % 60 == r % 60
  {
  }

  /** Which years the days from the epoch on fall in. */
  lemma YearsOfDays(days: nat)
    ensures 1970 <= CivilFromDays(days).year
    ensures days <= 2_932_896 <==> CivilFromDays(days).year <= 9999
  {
    CivilIsRight(days);
    var c, first, last := CivilFromDays(days), Date(1970, 1, 1), Date(9999, 12, 31);
    hide CivilFromDays;
    MonthTable(9999);
    assert DayNumber(first) == 0 && DayNumber(last) == 2_932_896;
    hide DayNumber;
    if Before(c, first) {
      LaterIsGreater(c, first);
    }
    if Before(last, c) {
      LaterIsGreater(last, c);
    } else if c != last {
      LaterIsGreater(c, last);
    }
  }

  /** Every instant up to the end of year 9999 has fields as section 5.6 of RFC 3339 wants
      them, and they name that instant. */
  lemma StampIsRfc3339(seconds: nat)
    ensures var t := Stamp(seconds);
            && ValidDate(t.date) && 0 <= t.hour < 24 && 0 <= t.minute < 60 && 0 <= t.second < 60
            && DayNumber(t.date) * 86_400 + t.hour * 3600 + t.minute * 60 + t.second == seconds
    ensures seconds < 253_402_300_800 <==> Stamp(seconds).date.year <= 9999
    ensures Stamp(seconds).date.year >= 1970
  {
    hide CivilFromDays, DayNumber, ValidDate;
    CivilIsRight(seconds / 86_400);
    TimeOfDay(seconds);
    YearsOfDays(seconds / 86_400);
  }
}
