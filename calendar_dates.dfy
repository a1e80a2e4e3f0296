/**
 * The month helpers of src/shared/lib/date.ts over (year, month, day) dates in
 * the proleptic Gregorian calendar: the first and last day of a month, the
 * Sunday-first grid of a month with leading blanks, and the "yyyy-MM-dd" key.
 */
module CalendarDates {
  import opened Wrappers
  import Decimal

  /** A calendar date; `month` is 1-based. */
  datatype Date = Date(year: int, month: int, day: int)

  /** The Gregorian rule: every fourth year, except centuries not divisible by 400. */
  predicate IsLeapYear(y: int)
  {
    y % 4 == 0 && (y % 100 != 0 || y % 400 == 0)
  }

  function DaysInMonth(y: int, m: int): (n: int)
    requires 1 <= m <= 12
    ensures 28 <= n <= 31
  {
    if m == 2 then (if IsLeapYear(y) then 29 else 28)
    else if m == 4 || m == 6 || m == 9 || m == 11 then 30
    else 31
  }

  predicate Valid(d: Date)
  {
    1 <= d.month <= 12 && 1 <= d.day <= DaysInMonth(d.year, d.month)
  }

  /** The day after d. */
  function Next(d: Date): (n: Date)
    requires Valid(d)
    ensures Valid(n)
  {
    if d.day < DaysInMonth(d.year, d.month) then Date(d.year, d.month, d.day + 1)
    else if d.month < 12 then Date(d.year, d.month + 1, 1)
    else Date(d.year + 1, 1, 1)
  }

  /** Days from 0001-01-01 to January 1st of year y. */
  function DaysBeforeYear(y: int): int
  {
    var p := y - 1;
    365 * p + p / 4 - p / 100 + p / 400
  }

  /** Days from January 1st to the first of month m of year y. */
  function DaysBeforeMonth(y: int, m: int): int
    requires 1 <= m <= 12
  {
    [0, 31, 59, 90, 120, 151, 181, 212, 243, 273, 304, 334][m - 1]
      + (if m > 2 && IsLeapYear(y) then 1 else 0)
  }

  /** Days from 0001-01-01 to d (negative before it). */
  function DayNumber(d: Date): int
    requires 1 <= d.month <= 12
  {
    DaysBeforeYear(d.year) + DaysBeforeMonth(d.year, d.month) + d.day - 1
  }

  /** `getDay`: 0 is Sunday, 6 is Saturday; 0001-01-01 was a Monday. */
  function Weekday(d: Date): (w: int)
    requires 1 <= d.month <= 12
    ensures 0 <= w < 7
  {
    (DayNumber(d) + 1) % 7
  }

  /** How many multiples of 4, 100 and 400 are passed by one step from y - 1 to y. */
  lemma DivSteps(y: int)
    ensures y / 4 - (y - 1) / 4 == if y % 4 == 0 then 1 else 0
    ensures y / 100 - (y - 1) / 100 == if y % 100 == 0 then 1 else 0
    ensures y / 400 - (y - 1) / 400 == if y % 400 == 0 then 1 else 0
  {
  }

  /** A multiple of 100 is one of 4, and a multiple of 400 one of 100. */
  lemma NestedDivisors(y: int)
    ensures y % 100 == 0 ==> y % 4 == 0
    ensures y % 400 == 0 ==> y % 100 == 0
  {
    var q, r := y / 100, y / 400;
    assert y == 100 * q + y % 100;
    assert y == 400 * r + y % 400;
    assert y % 100 == 0 ==> y == 4 * (25 * q);
    assert y % 400 == 0 ==> y == 100 * (4 * r);
  }

  lemma ModSevenShift(a: int, b: int)
    ensures (a + b) % 7 == (a % 7 + b) % 7
  {
    var q := a / 7;
    assert a == 7 * q + a % 7;
    assert a + b == 7 * q + (a % 7 + b);
  }

  /** A year has 366 days when it is a leap year and 365 otherwise. */
  lemma YearLength(y: int)
    ensures DaysBeforeYear(y + 1) == DaysBeforeYear(y) + if IsLeapYear(y) then 366 else 365
  {
    DivSteps(y);
    NestedDivisors(y);
    assert DaysBeforeYear(y + 1) == 365 * y + y / 4 - y / 100 + y / 400;
    assert DaysBeforeYear(y) == 365 * (y - 1) + (y - 1) / 4 - (y - 1) / 100 + (y - 1) / 400;
  }

  /** The numbering counts days: the next day is numbered one higher. */
  lemma NextIsOneDayLater(d: Date)
    requires Valid(d)
    ensures DayNumber(Next(d)) == DayNumber(d) + 1
  {
    if d.day == DaysInMonth(d.year, d.month) && d.month == 12 {
      YearLength(d.year);
    }
  }

  /** Weekdays advance by one each day. */
  lemma NextWeekday(d: Date)
    requires Valid(d)
    ensures Weekday(Next(d)) == (Weekday(d) + 1) % 7
  {
    NextIsOneDayLater(d);
    ModSevenShift(DayNumber(d) + 1, 1);
  }

  /** Within a month, day k falls k - 1 weekdays after the first. */
  lemma WeekdayInMonth(y: int, m: int, k: int)
    requires 1 <= m <= 12
    ensures Weekday(Date(y, m, k)) == (Weekday(Date(y, m, 1)) + k - 1) % 7
  {
    var first := DayNumber(Date(y, m, 1));
    assert DayNumber(Date(y, m, k)) == first + k - 1;
    ModSevenShift(first + 1, k - 1);
  }

  /** Known dates: the Unix epoch was a Thursday, 2000-01-01 a Saturday. */
  lemma KnownWeekdays()
    ensures Weekday(Date(1970, 1, 1)) == 4
    ensures Weekday(Date(2000, 1, 1)) == 6
    ensures Weekday(Date(2024, 2, 29)) == 4
  {
  }

  /** `new Date(year, ...)` reads the years 0 to 99 as 1900 to 1999. */
  function FullYear(year: int): int
  {
    if 0 <= year <= 99 then 1900 + year else year
  }

  /**
   * `new Date(year, month - 1, 1)`: the first of the month; a month outside
   * 1..12 rolls over into the neighbouring years.
   */
  function FirstOfMonth(year: int, month: int): (d: Date)
    ensures Valid(d) && d.day == 1
    ensures 1 <= month <= 12 && !(0 <= year <= 99) ==> d == Date(year, month, 1)
    ensures d.year * 12 + d.month == FullYear(year) * 12 + month
  {
    var index := month - 1;
    Date(FullYear(year) + index / 12, index % 12 + 1, 1)
  }

  datatype MonthRange = MonthRange(start: Date, end: Date)

  /**
   * `getMonthRange`: `start` is the first day of the month and `end` its last
   * (the month of `start` has `end.day` days and the day after `end` opens the
   * next month).
   */
  function GetMonthRange(year: int, month: int): (r: MonthRange)
    ensures Valid(r.start) && Valid(r.end)
    ensures r.start == FirstOfMonth(year, month)
    ensures r.end.year == r.start.year && r.end.month == r.start.month
    ensures r.end.day == DaysInMonth(r.start.year, r.start.month)
    ensures Next(r.end).day == 1 && Next(r.end).month != r.end.month
    ensures DayNumber(r.end) - DayNumber(r.start) + 1 == DaysInMonth(r.start.year, r.start.month)
  {
    var start := FirstOfMonth(year, month);
    MonthRange(start, Date(start.year, start.month, DaysInMonth(start.year, start.month)))
  }

  /**
   * Day 0 of a month, as `new Date(y, m, 0)` reads it: the day before the
   * first. It undoes `Next`.
   */
  function Previous(d: Date): (p: Date)
    requires Valid(d)
    ensures Valid(p) && Next(p) == d
  {
    if d.day > 1 then Date(d.year, d.month, d.day - 1)
    else if d.month > 1 then Date(d.year, d.month - 1, DaysInMonth(d.year, d.month - 1))
    else Date(d.year - 1, 12, 31)
  }

  /**
   * The calendar screen's last day of a month (1-based `month`),
   * `new Date(year, month, 0)`, is the day before the first of the next
   * month, which is the end `getMonthRange` gives.
   */
  lemma MonthEndIsDayZero(year: int, month: int)
    ensures Previous(FirstOfMonth(year, month + 1)) == GetMonthRange(year, month).end
  {
    var a, b := FirstOfMonth(year, month), FirstOfMonth(year, month + 1);
    assert b.year * 12 + b.month == a.year * 12 + a.month + 1;
    if b.month > 1 {
      assert b.year == a.year && b.month == a.month + 1;
    } else {
      assert b.year == a.year + 1 && a.month == 12;
    }
  }

  /** date-fns `eachDayOfInterval`: every day from `start` to `end`, one after the other. */
  function EachDayOfInterval(start: Date, end: Date): (days: seq<Date>)
    requires Valid(start) && Valid(end)
    decreases DayNumber(end) - DayNumber(start)
  {
    if DayNumber(end) < DayNumber(start) then []
    else
      NextIsOneDayLater(start);
      [start] + EachDayOfInterval(Next(start), end)
  }

  /** Within a month, day numbers differ as the days do. */
  lemma SameMonthDays(y: int, m: int, a: int, b: int)
    requires 1 <= m <= 12
    ensures DayNumber(Date(y, m, b)) - DayNumber(Date(y, m, a)) == b - a
  {
  }

  /** The days from day k to the end of a month are days k, k + 1, ... of that month, in order. */
  lemma {:induction false} EachDayToMonthEnd(y: int, m: int, k: int)
    requires 1 <= m <= 12 && 1 <= k <= DaysInMonth(y, m)
    ensures EachDayOfInterval(Date(y, m, k), Date(y, m, DaysInMonth(y, m)))
      == seq(DaysInMonth(y, m) - k + 1, i => Date(y, m, k + i))
    decreases DaysInMonth(y, m) - k
  {
    var n := DaysInMonth(y, m);
    DayListStep(y, m, k);
    DaySeqCons(y, m, k, n);
    if k < n {
      EachDayToMonthEnd(y, m, k + 1);
    }
  }

  /** One step of `eachDayOfInterval` towards the end of a month. */
  lemma DayListStep(y: int, m: int, k: int)
    requires 1 <= m <= 12 && 1 <= k <= DaysInMonth(y, m)
    ensures var end := Date(y, m, DaysInMonth(y, m));
      EachDayOfInterval(Date(y, m, k), end)
        == [Date(y, m, k)] + (if k < DaysInMonth(y, m) then EachDayOfInterval(Date(y, m, k + 1), end) else [])
  {
    var first := Date(y, m, k);
    NextIsOneDayLater(first);
    SameMonthDays(y, m, k, DaysInMonth(y, m));
  }

  lemma DaySeqCons(y: int, m: int, k: int, n: int)
    requires k <= n
    ensures seq(n - k + 1, i => Date(y, m, k + i)) == [Date(y, m, k)] + seq(n - k, i => Date(y, m, k + 1 + i))
  {
    var whole := seq(n - k + 1, i => Date(y, m, k + i));
    var rest := seq(n - k, i => Date(y, m, k + 1 + i));
    forall i | 0 <= i < |whole| ensures whole[i] == ([Date(y, m, k)] + rest)[i] {
      if i > 0 {
        assert rest[i - 1] == Date(y, m, k + i);
      }
    }
  }

  /**
   * `getCalendarDays`: as many blank cells as the weekday of the first of the
   * month, then every day of the month.
   */
  function GetCalendarDays(year: int, month: int): seq<Option<Date>>
  {
    var r := GetMonthRange(year, month);
    var days := EachDayOfInterval(r.start, r.end);
    seq(Weekday(r.start), _ => None) + seq(|days|, i requires 0 <= i < |days| => Some(days[i]))
  }

  /**
   * The grid holds weekday(day 1) blanks, at most six, and then the days
   * 1..DaysInMonth of the month in order, each the day after the one before.
   */
  lemma CalendarDaysLayout(year: int, month: int)
    ensures var r := GetMonthRange(year, month);
      var first := Weekday(r.start);
      var cells := GetCalendarDays(year, month);
      && first <= 6
      && |cells| == first + DaysInMonth(r.start.year, r.start.month)
      && (forall i :: 0 <= i < first ==> cells[i] == None)
      && (forall i :: first <= i < |cells| ==> cells[i] == Some(Date(r.start.year, r.start.month, i - first + 1)))
      && (forall i :: first <= i < |cells| - 1 ==> cells[i + 1] == Some(Next(cells[i].value)))
  {
    var r := GetMonthRange(year, month);
    EachDayToMonthEnd(r.start.year, r.start.month, 1);
  }

  /** Every day sits in the column of its weekday under the header Sunday, Monday, ..., Saturday. */
  lemma CalendarDaysAligned(year: int, month: int)
    ensures var cells := GetCalendarDays(year, month);
      forall i :: 0 <= i < |cells| && cells[i].Some? ==>
        Valid(cells[i].value) && Weekday(cells[i].value) == i % 7
  {
    var r := GetMonthRange(year, month);
    CalendarDaysLayout(year, month);
    var first := Weekday(r.start);
    var cells := GetCalendarDays(year, month);
    forall i | 0 <= i < |cells| && cells[i].Some?
      ensures Valid(cells[i].value) && Weekday(cells[i].value) == i % 7
    {
      WeekdayInMonth(r.start.year, r.start.month, i - first + 1);
    }
  }

  /** The grid never needs more than six rows of seven. */
  lemma CalendarFitsSixWeeks(year: int, month: int)
    ensures |GetCalendarDays(year, month)| <= 6 * 7
  {
    CalendarDaysLayout(year, month);
  }

  /** date-fns' 'yyyy' prints the year of the era: year 0 (1 BC) as 1, year -1 as 2. */
  function YearOfEra(y: int): nat
  {
    if y > 0 then y else 1 - y
  }

  /** `getDateKey`: `format(date, 'yyyy-MM-dd')`, each field zero-padded. */
  function DateKey(d: Date): string
    requires Valid(d)
  {
    Decimal.Padded(YearOfEra(d.year), 4) + "-" + Decimal.Padded(d.month, 2) + "-" + Decimal.Padded(d.day, 2)
  }

  lemma SmallPowers()
    ensures Decimal.Pow10(2) == 100 && Decimal.Pow10(4) == 10000
  {
    assert Decimal.Pow10(1) == 10;
    assert Decimal.Pow10(3) == 1000;
  }

  /** The key splits as year + "-" + month + "-" + day, the last two of two digits each. */
  lemma DateKeyParts(d: Date)
    requires Valid(d)
    ensures var y := Decimal.Padded(YearOfEra(d.year), 4);
      var m := Decimal.Padded(d.month, 2);
      var dd := Decimal.Padded(d.day, 2);
      && |m| == 2 && |dd| == 2 && |y| >= 4
      && DateKey(d) == y + ("-" + (m + ("-" + dd)))
      && (d.year >= 1 && d.year <= 9999 ==> |y| == 4)
  {
    KeyFieldWidths(d);
    Regroup(Decimal.Padded(YearOfEra(d.year), 4), "-", Decimal.Padded(d.month, 2), "-", Decimal.Padded(d.day, 2));
  }

  lemma KeyFieldWidths(d: Date)
    requires Valid(d)
    ensures |Decimal.Padded(d.month, 2)| == 2 && |Decimal.Padded(d.day, 2)| == 2
    ensures |Decimal.Padded(YearOfEra(d.year), 4)| >= 4
    ensures 1 <= d.year <= 9999 ==> |Decimal.Padded(YearOfEra(d.year), 4)| == 4
  {
    SmallPowers();
  }

  lemma Regroup(a: string, b: string, c: string, e: string, f: string)
    ensures a + b + c + e + f == a + (b + (c + (e + f)))
  {
    calc {
      a + b + c + e + f;
      (a + b + c) + (e + f);
      (a + b) + (c + (e + f));
      a + (b + (c + (e + f)));
    }
  }

  /**
   * For the years 1 to 9999 the key is the ISO 8601 calendar date in the
   * extended format: four digits of year, '-', two of month, '-', two of day.
   */
  lemma DateKeyFormat(d: Date)
    requires Valid(d) && 1 <= d.year <= 9999
    ensures var k := DateKey(d);
      && |k| == 10 && k[4] == '-' && k[7] == '-'
      && Decimal.AllDigits(k[..4]) && Decimal.AllDigits(k[5..7]) && Decimal.AllDigits(k[8..])
      && Decimal.Value(k[..4]) == d.year
      && Decimal.Value(k[5..7]) == d.month
      && Decimal.Value(k[8..]) == d.day
  {
    DateKeyParts(d);
    KeyLayout(Decimal.Padded(YearOfEra(d.year), 4), Decimal.Padded(d.month, 2), Decimal.Padded(d.day, 2));
  }

  /** Where the fields of a "yyyy-MM-dd" string sit. */
  lemma KeyLayout(y: string, m: string, dd: string)
    requires |y| == 4 && |m| == 2 && |dd| == 2
    ensures var k := y + ("-" + (m + ("-" + dd)));
      && |k| == 10 && k[4] == '-' && k[7] == '-'
      && k[..4] == y && k[5..7] == m && k[8..] == dd
  {
    var k := y + ("-" + (m + ("-" + dd)));
    assert k[5..] == m + ("-" + dd);
  }

  /** Distinct dates of the Common Era have distinct keys. */
  lemma DateKeyInjective(a: Date, b: Date)
    requires Valid(a) && Valid(b) && a.year >= 1 && b.year >= 1
    requires DateKey(a) == DateKey(b)
    ensures a == b
  {
    DateKeyParts(a);
    DateKeyParts(b);
    var ya, yb := Decimal.Padded(a.year, 4), Decimal.Padded(b.year, 4);
    var ma, mb := Decimal.Padded(a.month, 2), Decimal.Padded(b.month, 2);
    var da, db := Decimal.Padded(a.day, 2), Decimal.Padded(b.day, 2);
    SplitAtDash(ya, ma + ("-" + da), yb, mb + ("-" + db));
    SplitAtDash(ma, da, mb, db);
  }

  /**
   * A field of digits followed by '-' is recovered from the string: the first
   * '-' ends it.
   */
  lemma SplitAtDash(a: string, ra: string, b: string, rb: string)
    requires Decimal.AllDigits(a) && Decimal.AllDigits(b)
    requires a + ("-" + ra) == b + ("-" + rb)
    ensures a == b && ra == rb
  {
    var k := a + ("-" + ra);
    DashAfterDigits(a, ra);
    DashAfterDigits(b, rb);
    assert |a| == |b|;
    assert a == k[..|a|] && b == k[..|b|];
    assert ra == k[|a| + 1..] && rb == k[|b| + 1..];
  }

  lemma DashAfterDigits(a: string, r: string)
    requires Decimal.AllDigits(a)
    ensures var k := a + ("-" + r);
      && |a| < |k| && k[|a|] == '-' && !Decimal.IsDigit(k[|a|])
      && forall i :: 0 <= i < |a| ==> Decimal.IsDigit(k[i])
  {
  }

  /** d comes before e in the calendar: by year, then month, then day. */
  predicate Before(d: Date, e: Date)
  {
    || d.year < e.year
    || (d.year == e.year && d.month < e.month)
    || (d.year == e.year && d.month == e.month && d.day < e.day)
  }

  lemma {:induction false} PaddedOrder(x: nat, y: nat, w: nat)
    requires 1 <= w && x < Decimal.Pow10(w) && y < Decimal.Pow10(w)
    ensures Decimal.Less(Decimal.Padded(x, w), Decimal.Padded(y, w)) <==> x < y
    ensures Decimal.Padded(x, w) == Decimal.Padded(y, w) <==> x == y
  {
    Decimal.LessIsNumericOrder(Decimal.Padded(x, w), Decimal.Padded(y, w));
  }

  /**
   * For four-digit years, string order of the keys is calendar order, which
   * makes `gte`/`lte` on keys select a date interval.
   */
  lemma DateKeyOrder(a: Date, b: Date)
    requires Valid(a) && Valid(b) && 1 <= a.year <= 9999 && 1 <= b.year <= 9999
    ensures Decimal.Less(DateKey(a), DateKey(b)) <==> Before(a, b)
  {
    DateKeyParts(a);
    DateKeyParts(b);
    SmallPowers();
    var ya, yb := Decimal.Padded(a.year, 4), Decimal.Padded(b.year, 4);
    var ma, mb := Decimal.Padded(a.month, 2), Decimal.Padded(b.month, 2);
    var da, db := Decimal.Padded(a.day, 2), Decimal.Padded(b.day, 2);
    PaddedOrder(a.year, b.year, 4);
    PaddedOrder(a.month, b.month, 2);
    PaddedOrder(a.day, b.day, 2);
    Decimal.LessOfConcat(ya, "-" + (ma + ("-" + da)), yb, "-" + (mb + ("-" + db)));
    Decimal.LessOfConcat("-", ma + ("-" + da), "-", mb + ("-" + db));
    Decimal.LessOfConcat(ma, "-" + da, mb, "-" + db);
    Decimal.LessOfConcat("-", da, "-", db);
    Decimal.LessIrreflexive("-");
  }

  /**
   * The keys from the first to the last day of a month, both included, are
   * exactly the keys of that month's days.
   */
  lemma MonthKeyInterval(year: int, month: int, d: Date)
    requires Valid(d) && 1 <= d.year <= 9999
    requires 1 <= GetMonthRange(year, month).start.year <= 9999
    ensures var r := GetMonthRange(year, month);
      (!Decimal.Less(DateKey(d), DateKey(r.start)) && !Decimal.Less(DateKey(r.end), DateKey(d)))
        <==> d.year == r.start.year && d.month == r.start.month
  {
    var r := GetMonthRange(year, month);
    DateKeyOrder(d, r.start);
    DateKeyOrder(r.end, d);
  }

  lemma MonthsIncrease(y: int, m1: int, m2: int)
    requires 1 <= m1 < m2 <= 12
    ensures DaysBeforeMonth(y, m1) + DaysInMonth(y, m1) <= DaysBeforeMonth(y, m2)
  {
  }

  lemma DayNumberWithinYear(d: Date)
    requires Valid(d)
    ensures DaysBeforeYear(d.year) <= DayNumber(d) < DaysBeforeYear(d.year + 1)
  {
    YearLength(d.year);
  }

  lemma {:induction false} YearsIncrease(y1: int, y2: int)
    requires y1 < y2
    ensures DaysBeforeYear(y1 + 1) <= DaysBeforeYear(y2)
    decreases y2 - y1
  {
    if y1 + 1 < y2 {
      YearsIncrease(y1 + 1, y2);
      YearLength(y1 + 1);
    }
  }

  lemma BeforeHasSmallerNumber(a: Date, b: Date)
    requires Valid(a) && Valid(b) && Before(a, b)
    ensures DayNumber(a) < DayNumber(b)
  {
    if a.year < b.year {
      DayNumberWithinYear(a);
      DayNumberWithinYear(b);
      YearsIncrease(a.year, b.year);
    } else if a.month < b.month {
      MonthsIncrease(a.year, a.month, b.month);
    }
  }

  /** Calendar order is the order of the day numbers. */
  lemma BeforeIsDayOrder(a: Date, b: Date)
    requires Valid(a) && Valid(b)
    ensures Before(a, b) <==> DayNumber(a) < DayNumber(b)
  {
    if Before(a, b) {
      BeforeHasSmallerNumber(a, b);
    } else if Before(b, a) {
      BeforeHasSmallerNumber(b, a);
    }
  }

  /**
   * `eachDayOfInterval` lists consecutive days: the i-th is i days after the
   * start, and there are as many as the interval holds (none when the end is
   * before the start).
   */
  lemma {:induction false} EachDayNumbers(start: Date, end: Date)
    requires Valid(start) && Valid(end)
    ensures var days := EachDayOfInterval(start, end);
      && |days| == (if DayNumber(end) < DayNumber(start) then 0 else DayNumber(end) - DayNumber(start) + 1)
      && forall i :: 0 <= i < |days| ==> Valid(days[i]) && DayNumber(days[i]) == DayNumber(start) + i
    decreases DayNumber(end) - DayNumber(start)
  {
    if DayNumber(end) >= DayNumber(start) {
      NextIsOneDayLater(start);
      EachDayNumbers(Next(start), end);
      var rest := EachDayOfInterval(Next(start), end);
      var days := EachDayOfInterval(start, end);
      assert days == [start] + rest;
      forall i | 0 < i < |days| ensures Valid(days[i]) && DayNumber(days[i]) == DayNumber(start) + i {
        assert days[i] == rest[i - 1];
      }
    }
  }

  /** The days of an interval are listed in calendar order. */
  lemma EachDayInOrder(start: Date, end: Date)
    requires Valid(start) && Valid(end)
    ensures var days := EachDayOfInterval(start, end);
      forall i, j :: 0 <= i < j < |days| ==> Valid(days[i]) && Valid(days[j]) && Before(days[i], days[j])
  {
    var days := EachDayOfInterval(start, end);
    EachDayNumbers(start, end);
    forall i, j | 0 <= i < j < |days| ensures Valid(days[i]) && Valid(days[j]) && Before(days[i], days[j]) {
      BeforeIsDayOrder(days[i], days[j]);
    }
  }
}
