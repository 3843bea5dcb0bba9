/**
 The ISO week label of a civil date, computed by moving a Date object to the Thursday of its week
 and then to the first Thursday of that Thursday's year, against the week date of section 4.1.4 of
 ISO 8601:2004: weeks run Monday to Sunday and week 1 is the one with 4 January.
 */
module IsoWeek {
  import opened Calendar
  import opened Common

  const MS_PER_DAY := 86400000
  const MS_PER_WEEK := 604800000
  const EPOCH := 719162  // day number of 1 January 1970

  /** A Date object that holds a UTC midnight from year 1 on. */
  class UtcDate {
    var day: nat

    /** Date.UTC: years 0 to 99 mean 1900 to 1999. */
    constructor Utc(year: int, month: nat, date: int)
      requires month < 12 && DayNumber(UtcYear(year), month, date) >= 0
      ensures day == DayNumber(UtcYear(year), month, date)
    {
      day := DayNumber(UtcYear(year), month, date);
    }

    /** Milliseconds since 1970. */
    function GetTime(): int
      reads this
    {
      (day - EPOCH) * MS_PER_DAY
    }

    /** Day of the week, Sunday being 0. */
    function GetUTCDay(): int
      reads this
    {
      (day + 1) % 7
    }

    function GetUTCDate(): int
      reads this
    {
      DateOf(day)
    }

    method SetUTCDate(date: int)
      requires DayNumber(YearOf(day), MonthOf(day), date) >= 0
      modifies this
      ensures day == old(DayNumber(YearOf(day), MonthOf(day), date))
    {
      day := DayNumber(YearOf(day), MonthOf(day), date);
    }

    method SetUTCMonth(month: nat, date: int)
      requires month < 12 && DayNumber(YearOf(day), month, date) >= 0
      modifies this
      ensures day == old(DayNumber(YearOf(day), month, date))
    {
      day := DayNumber(YearOf(day), month, date);
    }
  }

  function UtcYear(year: int): int {
    if 0 <= year <= 99 then 1900 + year else year
  }

  function CeilDiv(a: int, b: int): int
    requires b > 0
  {
    if a % b == 0 then a / b else a / b + 1
  }

  // ---- the week date ----

  function MondayOf(day: int): int {
    day - day % 7
  }

  function WeekOneMonday(y: int): int {
    MondayOf(DayNumber(y, 0, 4))
  }

  function WeekYear(day: int): int
    requires MondayOf(day) + 3 >= 0
  {
    YearOf(MondayOf(day) + 3)
  }

  function WeekNumber(day: int): int
    requires MondayOf(day) + 3 >= 0
  {
    1 + (MondayOf(day) - WeekOneMonday(WeekYear(day))) / 7
  }

  function WeeksIn(y: int): int {
    (WeekOneMonday(y + 1) - WeekOneMonday(y)) / 7
  }

  // ---- the label as text ----

  function DigitValue(c: char): nat {
    if '0' <= c <= '9' then c as int - '0' as int else 0
  }

  function Parse(s: string): nat {
    if s == "" then 0 else 10 * Parse(s[..|s| - 1]) + DigitValue(s[|s| - 1])
  }

  lemma ParseSnoc(s: string, d: nat)
    requires d < 10
    ensures Parse(s + [Digit(d)]) == 10 * Parse(s) + d
  {
    assert (s + [Digit(d)])[..|s|] == s;
  }

  lemma {:induction false} ParseDecimal(n: nat)
    ensures Parse(Decimal(n)) == n
  {
    if n < 10 {
      ParseSnoc("", n);
      assert "" + [Digit(n)] == [Digit(n)];
    } else {
      ParseDecimal(n / 10);
      ParseSnoc(Decimal(n / 10), n % 10);
    }
  }

  function PadStart2(s: string): string {
    if |s| < 2 then seq(2 - |s|, _ => '0') + s else s
  }

  function Label(year: nat, week: nat): string {
    Decimal(year) + "-W" + PadStart2(Decimal(week))
  }

  lemma TwoDigits(week: nat)
    requires 1 <= week < 100
    ensures |PadStart2(Decimal(week))| == 2 && Parse(PadStart2(Decimal(week))) == week
  {
    ParseDecimal(week);
    if week < 10 {
      var s := PadStart2(Decimal(week));
      assert Decimal(week) == [Digit(week)] && s == ['0', Digit(week)];
      assert s[..1] == ['0'] && s[..1][..0] == "";
      assert DigitValue(Digit(week)) == week;
    } else {
      assert |Decimal(week / 10)| == 1;
    }
  }

  lemma LabelIsInjective(y: nat, w: nat, y': nat, w': nat)
    requires 1 <= w < 100 && 1 <= w' < 100 && Label(y, w) == Label(y', w')
    ensures y == y' && w == w'
  {
    TwoDigits(w);
    TwoDigits(w');
    var s, s' := Label(y, w), Label(y', w');
    assert s[..|s| - 4] == Decimal(y) && s'[..|s'| - 4] == Decimal(y');
    assert s[|s| - 2..] == PadStart2(Decimal(w)) && s'[|s'| - 2..] == PadStart2(Decimal(w'));
    ParseDecimal(y);
    ParseDecimal(y');
  }

  /** The label is the year, a dash, a W and two digits of the week. */
  lemma LabelIs(year: nat, week: nat)
    requires 1 <= week < 100
    ensures Label(year, week) == Decimal(year) + ['-', 'W', Digit(week / 10), Digit(week % 10)]
  {
    if week >= 10 {
      assert Decimal(week / 10) == [Digit(week / 10)];
      assert Decimal(week) == [Digit(week / 10), Digit(week % 10)];
    } else {
      assert Decimal(week) == [Digit(week)] && PadStart2(Decimal(week)) == [Digit(0), Digit(week)];
    }
  }

  // ---- the two descriptions agree ----

  lemma Mod7(x: int, q: int, r: int)
    requires x == 7 * q + r && 0 <= r < 7
    ensures x % 7 == r && x / 7 == q
  {
  }

  /** The Thursday of the week of a day three days on is the first Thursday from that day on. */
  lemma ThursdayFrom(z: int)
    ensures var t := MondayOf(z + 3) + 3;
      z <= t < z + 7 && t % 7 == 3 && t == z + (4 - (z + 1) % 7 + 7) % 7
  {
    var q, r := z / 7, z % 7;
    Mod7(z + 3, if r < 4 then q else q + 1, if r < 4 then r + 3 else r - 4);
    Mod7(z + 1, if r < 6 then q else q + 1, if r < 6 then r + 1 else 0);
    Mod7(MondayOf(z + 3) + 3, (z + 3) / 7, 3);
  }

  /** The first Thursday of a year lies in the week of 4 January. */
  lemma FirstThursday(y: int)
    ensures var jan1 := DaysBeforeYear(y);
      jan1 <= WeekOneMonday(y) + 3 < jan1 + 7
      && WeekOneMonday(y) + 3 == jan1 + (4 - (jan1 + 1) % 7 + 7) % 7
      && (WeekOneMonday(y) + 3) % 7 == 3
  {
    ThursdayFrom(DaysBeforeYear(y));
  }

  lemma MondaysAreExact(x: int, y: int)
    ensures (MondayOf(x) - MondayOf(y)) % 7 == 0
  {
    assert MondayOf(x) == 7 * (x / 7) && MondayOf(y) == 7 * (y / 7);
    assert MondayOf(x) - MondayOf(y) == 7 * (x / 7 - y / 7);
  }

  /** A week lies in the year whose first week does not come after it and whose successor's does. */
  lemma WeekYearBounds(day: int)
    requires MondayOf(day) + 3 >= 0
    ensures var y := WeekYear(day);
      WeekOneMonday(y) <= MondayOf(day) < WeekOneMonday(y + 1)
  {
    var y := WeekYear(day);
    FirstThursday(y);
    FirstThursday(y + 1);
    MondaysApart(day, DayNumber(y, 0, 4));
  }

  lemma MondaysApart(x: int, y: int)
    ensures MondayOf(x) > MondayOf(y) - 7 ==> MondayOf(x) >= MondayOf(y)
  {
    assert MondayOf(x) == 7 * (x / 7) && MondayOf(y) == 7 * (y / 7);
  }

  lemma ThursdayInYear(day: int, y: int)
    requires WeekOneMonday(y) <= MondayOf(day) < WeekOneMonday(y + 1)
    ensures DaysBeforeYear(y) <= MondayOf(day) + 3 < DaysBeforeYear(y + 1)
  {
    FirstThursday(y);
    FirstThursday(y + 1);
    MondaysApart(DayNumber(y + 1, 0, 4), day);
    MondaysApart(day, DayNumber(y + 1, 0, 4));
  }

  lemma WeekYearUnique(day: int, y: int)
    requires MondayOf(day) + 3 >= 0
    requires y >= 1 && WeekOneMonday(y) <= MondayOf(day) < WeekOneMonday(y + 1)
    ensures WeekYear(day) == y
  {
    ThursdayInYear(day, y);
    YearIsUnique(MondayOf(day) + 3, y);
  }

  lemma WeeksBetween(z: int, n: int)
    requires 365 <= n <= 366
    ensures MondayOf(z + n + 3) - MondayOf(z + 3) == 7 * if z % 7 == 3 || (n == 366 && z % 7 == 2) then 53 else 52
  {
    var q, r := z / 7, z % 7;
    Mod7(z + 3, if r < 4 then q else q + 1, if r < 4 then r + 3 else r - 4);
    var s := r + n - 361;  // z + n + 3 is s days after 52 weeks from the week of z
    Mod7(z + n + 3, q + 52 + s / 7, s % 7);
  }

  /** A year has 52 or 53 weeks, 53 exactly if it begins on a Thursday or is a leap year beginning on a Wednesday. */
  lemma LongYears(y: int)
    requires y >= 1
    ensures WeeksIn(y) == if DaysBeforeYear(y) % 7 == 3 || (IsLeap(y) && DaysBeforeYear(y) % 7 == 2) then 53 else 52
    ensures WeekOneMonday(y + 1) == WeekOneMonday(y) + 7 * WeeksIn(y)
  {
    WeeksBetween(DaysBeforeYear(y), DaysInYear(y));
  }

  lemma WeekNumberBounds(day: int)
    requires MondayOf(day) + 3 >= 0
    ensures 1 <= WeekNumber(day) <= WeeksIn(WeekYear(day)) <= 53
    ensures MondayOf(day) == WeekOneMonday(WeekYear(day)) + 7 * (WeekNumber(day) - 1)
  {
    var y := WeekYear(day);
    WeekYearBounds(day);
    LongYears(y);
    MondaysAreExact(day, DayNumber(y, 0, 4));
  }

  /** Two days share a label exactly when they share a Monday-to-Sunday week. */
  lemma SameLabelSameWeek(x: int, y: int)
    requires MondayOf(x) + 3 >= 0 && MondayOf(y) + 3 >= 0
    ensures WeekYear(x) >= 1 && WeekNumber(x) >= 1 && WeekYear(y) >= 1 && WeekNumber(y) >= 1
    ensures Label(WeekYear(x), WeekNumber(x)) == Label(WeekYear(y), WeekNumber(y)) <==> MondayOf(x) == MondayOf(y)
  {
    WeekNumberBounds(x);
    WeekNumberBounds(y);
    if Label(WeekYear(x), WeekNumber(x)) == Label(WeekYear(y), WeekNumber(y)) {
      LabelIsInjective(WeekYear(x), WeekNumber(x), WeekYear(y), WeekNumber(y));
    }
  }

  lemma NumberFrom(day: int, y: int, w: int)
    requires MondayOf(day) + 3 >= 0 && WeekYear(day) == y
    requires MondayOf(day) == WeekOneMonday(y) + 7 * (w - 1)
    ensures WeekNumber(day) == w
  {
    Mod7(MondayOf(day) - WeekOneMonday(y), w - 1, 0);
  }

  lemma NextMonday(day: int)
    ensures MondayOf(day + 7) == MondayOf(day) + 7
  {
    Mod7(day + 7, day / 7 + 1, day % 7);
  }

  /** From one week to the next the number goes up by one, or to 1 of the next year after the last week. */
  lemma NextWeek(day: int)
    requires MondayOf(day) + 3 >= 0
    ensures MondayOf(day + 7) + 3 >= 0
    ensures var y, w := WeekYear(day), WeekNumber(day);
      if w < WeeksIn(y)
      then WeekYear(day + 7) == y && WeekNumber(day + 7) == w + 1
      else WeekYear(day + 7) == y + 1 && WeekNumber(day + 7) == 1
  {
    NextMonday(day);
    WeekNumberBounds(day);
    NextWeekIn(day, WeekYear(day), WeekNumber(day), WeeksIn(WeekYear(day)), WeekOneMonday(WeekYear(day)));
  }

  lemma NextWeekIn(day: int, y: int, w: int, n: int, first: int)
    requires MondayOf(day) + 3 >= 0 && MondayOf(day + 7) == MondayOf(day) + 7 && y >= 1
    requires n == WeeksIn(y) && first == WeekOneMonday(y)
    requires 1 <= w <= n && MondayOf(day) == first + 7 * (w - 1)
    ensures w < n ==> WeekYear(day + 7) == y && WeekNumber(day + 7) == w + 1
    ensures w == n ==> WeekYear(day + 7) == y + 1 && WeekNumber(day + 7) == 1
  {
    LongYears(y);
    if w < n {
      WeekYearUnique(day + 7, y);
      NumberFrom(day + 7, y, w + 1);
    } else {
      FirstWeek(day + 7, y + 1);
    }
  }

  lemma FirstWeek(day: int, y: int)
    requires MondayOf(day) + 3 >= 0 && y >= 1 && MondayOf(day) == WeekOneMonday(y)
    ensures WeekYear(day) == y && WeekNumber(day) == 1
  {
    LongYears(y);
    WeekYearUnique(day, y);
    NumberFrom(day, y, 1);
  }

  predicate Before(y: int, w: int, y': int, w': int) {
    y < y' || (y == y' && w < w')
  }

  lemma {:induction false} WeekOneGrows(x: int, y: int)
    requires 1 <= x < y
    ensures WeekOneMonday(x) + 7 * WeeksIn(x) <= WeekOneMonday(y)
    decreases y - x
  {
    LongYears(x);
    if x + 1 < y {
      WeekOneGrows(x + 1, y);
      LongYears(x + 1);
    }
  }

  /** (year, week) orders weeks as time does. */
  lemma LabelsFollowTime(x: int, y: int)
    requires MondayOf(x) + 3 >= 0 && MondayOf(y) + 3 >= 0
    ensures MondayOf(x) < MondayOf(y) <==> Before(WeekYear(x), WeekNumber(x), WeekYear(y), WeekNumber(y))
  {
    WeekNumberBounds(x);
    WeekNumberBounds(y);
    if WeekYear(x) < WeekYear(y) { WeekOneGrows(WeekYear(x), WeekYear(y)); }
    if WeekYear(y) < WeekYear(x) { WeekOneGrows(WeekYear(y), WeekYear(x)); }
  }

  // ---- the computation ----

  lemma UtcYearIsLate(year: int)
    requires year >= 1
    ensures UtcYear(year) >= 100 && DaysBeforeYear(UtcYear(year)) >= 36000
  {
    YearsGrow(1, UtcYear(year));
  }

  /** Moves a date to the Thursday of its Monday-to-Sunday week. */
  method MoveToThursday(target: UtcDate)
    requires MondayOf(target.day) + 3 >= 0
    modifies target
    ensures target.day == MondayOf(old(target.day)) + 3
  {
    var dayNr := (target.GetUTCDay() + 6) % 7;
    var date := target.GetUTCDate() - dayNr + 3;
    ThursdayShift(target.day, dayNr, date);
    target.SetUTCDate(date);
  }

  lemma ThursdayShift(day: nat, dayNr: int, date: int)
    requires dayNr == ((day + 1) % 7 + 6) % 7 && date == DateOf(day) - dayNr + 3
    ensures DayNumber(YearOf(day), MonthOf(day), date) == MondayOf(day) + 3
  {
    DaysSinceMonday(day);
    DateShift(day, 3 - dayNr);
  }

  lemma DateShift(day: nat, k: int)
    ensures DayNumber(YearOf(day), MonthOf(day), DateOf(day) + k) == day + k
  {
  }

  lemma January(y: int)
    ensures forall d :: DayNumber(y, 0, d) == DaysBeforeYear(y) + d - 1
  {
  }

  /** Moves a date to the first Thursday of its year: to 1 January, then on to a Thursday. */
  method MoveToFirstThursday(target: UtcDate)
    modifies target
    ensures target.day == WeekOneMonday(old(YearOf(target.day))) + 3
  {
    ghost var year := YearOf(target.day);
    January(year);
    FirstThursday(year);
    YearsGrow(1, year);
    target.SetUTCMonth(0, 1);
    ghost var newYear := target.day;
    YearIsUnique(newYear, year);
    var weekday := target.GetUTCDay();
    var days := if weekday != 4 then (4 - weekday + 7) % 7 else 0;
    AfterNewYear(newYear, weekday, days, year);
    if weekday != 4 {
      target.SetUTCMonth(0, 1 + days);
    }
    assert target.day == newYear + days;
  }

  /** The label of a civil date: its year and week, after the century rule of Date.UTC. */
  method GetIsoWeekWindow(year: int, month: nat, day: int) returns (window: string)
    requires month >= 1 && IsCivilDate(year, month - 1, day)
    ensures var n := DayNumber(UtcYear(year), month - 1, day);
      && MondayOf(n) + 3 >= 0
      && WeekYear(n) >= 1 && WeekNumber(n) >= 1
      && window == Label(WeekYear(n), WeekNumber(n))
  {
    UtcYearIsLate(year);
    var target := new UtcDate.Utc(year, month - 1, day);
    ghost var n := target.day;
    MoveToThursday(target);
    var firstThursday := target.GetTime();
    var isoYear := YearOf(target.day);
    MoveToFirstThursday(target);
    var weekNumber := 1 + CeilDiv(firstThursday - target.GetTime(), MS_PER_WEEK);
    Computed(n, isoYear, firstThursday - target.GetTime());
    window := Label(isoYear, weekNumber);
  }

  lemma Computed(n: int, isoYear: int, ms: int)
    requires MondayOf(n) + 3 >= 0 && isoYear == YearOf(MondayOf(n) + 3)
    requires ms == (MondayOf(n) - WeekOneMonday(isoYear)) * MS_PER_DAY
    ensures isoYear == WeekYear(n) && WeekNumber(n) >= 1
    ensures 1 + CeilDiv(ms, MS_PER_WEEK) == WeekNumber(n)
  {
    CeilIsExact(n, ms);
    WeekNumberBounds(n);
  }

  lemma DaysSinceMonday(n: int)
    ensures ((n + 1) % 7 + 6) % 7 == n % 7
  {
    var q, r := n / 7, n % 7;
    Mod7(n + 1, if r < 6 then q else q + 1, if r < 6 then r + 1 else 0);
  }

  lemma AfterNewYear(newYear: int, weekday: int, days: int, y: int)
    requires newYear == DaysBeforeYear(y) && weekday == (newYear + 1) % 7
    requires days == if weekday != 4 then (4 - weekday + 7) % 7 else 0
    ensures newYear + days == WeekOneMonday(y) + 3 && days >= 0
  {
    FirstThursday(y);
  }

  /** The rounded quotient is always of whole weeks, so the rounding direction does not matter. */
  lemma CeilIsExact(n: int, ms: int)
    requires MondayOf(n) + 3 >= 0
    requires ms == (MondayOf(n) - WeekOneMonday(WeekYear(n))) * MS_PER_DAY
    ensures ms % MS_PER_WEEK == 0
    ensures 1 + CeilDiv(ms, MS_PER_WEEK) == WeekNumber(n)
  {
    WeekNumberBounds(n);
    WholeWeeks(WeekNumber(n) - 1);
  }

  lemma WholeWeeks(w: int)
    ensures (7 * w) * MS_PER_DAY % MS_PER_WEEK == 0
    ensures CeilDiv((7 * w) * MS_PER_DAY, MS_PER_WEEK) == w
  {
  }

  /**
   The label is the date's own week date exactly from year 100 on: for an earlier year it names
   the corresponding year of the twentieth century.
   */
  lemma EarlyYearsAreShifted(year: int, month: nat, day: int)
    requires IsCivilDate(year, month, day)
    ensures var n, m := DayNumber(year, month, day), DayNumber(UtcYear(year), month, day);
      MondayOf(n) + 3 >= 0 && MondayOf(m) + 3 >= 0
      && (WeekYear(n) == WeekYear(m) && WeekNumber(n) == WeekNumber(m) <==> year >= 100)
  {
    var n, m := DayNumber(year, month, day), DayNumber(UtcYear(year), month, day);
    YearsGrow(1, year);
    YearsGrow(1, UtcYear(year));
    if year < 100 {
      YearsGrow(year, UtcYear(year));
      assert DaysBeforeYear(year) + 365 * 1900 <= DaysBeforeYear(UtcYear(year));
      MonthShift(year, month);
      assert MondayOf(n) < MondayOf(m);
      LabelsFollowTime(n, m);
    }
  }

  lemma MonthShift(year: int, month: nat)
    requires month < 12
    ensures DaysBeforeMonth(UtcYear(year), month) + 1 >= DaysBeforeMonth(year, month)
  {
    DaysBeforeMonthIs(year, month);
    DaysBeforeMonthIs(UtcYear(year), month);
  }
}
