/**
 The proleptic Gregorian calendar as day numbers: day 0 is 1 January of year 1, a Monday. Months
 count from 0, as in the Date API.
 */
module Calendar {

  predicate IsLeap(y: int) {
    y % 4 == 0 && (y % 100 != 0 || y % 400 == 0)
  }

  function DaysInYear(y: int): int {
    if IsLeap(y) then 366 else 365
  }

  function DaysBeforeYear(y: int): int {
    if y <= 1 then 365 * (y - 1) else DaysBeforeYear(y - 1) + DaysInYear(y - 1)
  }

  function DaysInMonth(y: int, m: nat): (n: int)
    requires m < 12
    ensures 28 <= n <= 31
  {
    if m in {3, 5, 8, 10} then 30
    else if m != 1 then 31
    else if IsLeap(y) then 29 else 28
  }

  function DaysBeforeMonth(y: int, m: nat): (n: int)
    requires m <= 12
    ensures n >= 0
  {
    if m == 0 then 0 else DaysBeforeMonth(y, m - 1) + DaysInMonth(y, m - 1)
  }

  /** `d` counts from 1 and may run over either end of the month. */
  function DayNumber(y: int, m: nat, d: int): int
    requires m < 12
  {
    DaysBeforeYear(y) + DaysBeforeMonth(y, m) + d - 1
  }

  predicate IsCivilDate(y: int, m: int, d: int) {
    y >= 1 && 0 <= m < 12 && 1 <= d <= DaysInMonth(y, m)
  }

  lemma Quotient4(x: int, q: int, r: int)
    requires x == 4 * q + r && 0 <= r < 4
    ensures x / 4 == q && x % 4 == r
  {
  }

  lemma Next4(z: int)
    ensures (z + 1) / 4 == z / 4 + if (z + 1) % 4 == 0 then 1 else 0
  {
    var q, r := z / 4, z % 4;
    if r < 3 { Quotient4(z + 1, q, r + 1); } else { Quotient4(z + 1, q + 1, 0); }
  }

  lemma Quotient100(x: int, q: int, r: int)
    requires x == 100 * q + r && 0 <= r < 100
    ensures x / 100 == q && x % 100 == r
  {
  }

  lemma Next100(z: int)
    ensures (z + 1) / 100 == z / 100 + if (z + 1) % 100 == 0 then 1 else 0
  {
    var q, r := z / 100, z % 100;
    if r < 99 { Quotient100(z + 1, q, r + 1); } else { Quotient100(z + 1, q + 1, 0); }
  }

  lemma Quotient400(x: int, q: int, r: int)
    requires x == 400 * q + r && 0 <= r < 400
    ensures x / 400 == q && x % 400 == r
  {
  }

  lemma Next400(z: int)
    ensures (z + 1) / 400 == z / 400 + if (z + 1) % 400 == 0 then 1 else 0
  {
    var q, r := z / 400, z % 400;
    if r < 399 { Quotient400(z + 1, q, r + 1); } else { Quotient400(z + 1, q + 1, 0); }
  }

  lemma Multiples(y: int)
    ensures y % 400 == 0 ==> y % 100 == 0
    ensures y % 100 == 0 ==> y % 4 == 0
  {
    if y % 400 == 0 { Quotient100(y, 4 * (y / 400), 0); }
    if y % 100 == 0 { Quotient4(y, 25 * (y / 100), 0); }
  }

  /** The closed form: a leap day every four years, but not every hundred, but every four hundred. */
  lemma {:induction false} DaysBeforeYearIs(y: int)
    requires y >= 1
    ensures DaysBeforeYear(y) == 365 * (y - 1) + (y - 1) / 4 - (y - 1) / 100 + (y - 1) / 400
  {
    if y > 1 {
      DaysBeforeYearIs(y - 1);
      Next4(y - 2);
      Next100(y - 2);
      Next400(y - 2);
      Multiples(y - 1);
    }
  }

  /** The days before each month as a table, one more from March on in a leap year. */
  lemma {:induction false} DaysBeforeMonthIs(y: int, m: nat)
    requires m <= 12
    ensures DaysBeforeMonth(y, m)
            == [0, 31, 59, 90, 120, 151, 181, 212, 243, 273, 304, 334, 365][m] + if m >= 2 && IsLeap(y) then 1 else 0
  {
    if m > 0 { DaysBeforeMonthIs(y, m - 1); }
  }

  lemma MonthsFillTheYear(y: int)
    ensures DaysBeforeMonth(y, 12) == DaysInYear(y)
  {
    DaysBeforeMonthIs(y, 12);
  }

  lemma {:induction false} YearsGrow(x: int, y: int)
    requires x <= y
    ensures DaysBeforeYear(x) + 365 * (y - x) <= DaysBeforeYear(y)
    decreases y - x
  {
    if x < y {
      YearsGrow(x, y - 1);
    }
  }

  function YearFrom(day: int, y: int): (r: int)
    requires y >= 1 && DaysBeforeYear(y) <= day
    ensures r >= y && DaysBeforeYear(r) <= day < DaysBeforeYear(r + 1)
    decreases day - DaysBeforeYear(y)
  {
    if day < DaysBeforeYear(y + 1) then y else YearFrom(day, y + 1)
  }

  /** The year a day lies in. */
  function YearOf(day: nat): (y: int)
    ensures y >= 1 && DaysBeforeYear(y) <= day < DaysBeforeYear(y + 1)
  {
    YearFrom(day, 1)
  }

  lemma YearIsUnique(day: nat, y: int)
    requires DaysBeforeYear(y) <= day < DaysBeforeYear(y + 1)
    ensures YearOf(day) == y
  {
    if YearOf(day) < y { YearsGrow(YearOf(day) + 1, y); }
    if y < YearOf(day) { YearsGrow(y + 1, YearOf(day)); }
  }

  function MonthFrom(y: int, offset: int, m: nat): (r: nat)
    requires m < 12 && DaysBeforeMonth(y, m) <= offset < DaysBeforeMonth(y, 12)
    ensures r < 12 && DaysBeforeMonth(y, r) <= offset < DaysBeforeMonth(y, r + 1)
    decreases 12 - m
  {
    if offset < DaysBeforeMonth(y, m + 1) then m else MonthFrom(y, offset, m + 1)
  }

  function MonthOf(day: nat): (m: nat)
    ensures m < 12
    ensures DaysBeforeMonth(YearOf(day), m) <= day - DaysBeforeYear(YearOf(day)) < DaysBeforeMonth(YearOf(day), m + 1)
  {
    var y := YearOf(day);
    MonthsFillTheYear(y);
    MonthFrom(y, day - DaysBeforeYear(y), 0)
  }

  /** Day of the month, from 1. */
  function DateOf(day: nat): (d: int)
    ensures 1 <= d <= DaysInMonth(YearOf(day), MonthOf(day))
    ensures DayNumber(YearOf(day), MonthOf(day), d) == day
  {
    day - DayNumber(YearOf(day), MonthOf(day), 1) + 1
  }

  lemma {:induction false} MonthsGrow(y: int, i: nat, j: nat)
    requires i <= j <= 12
    ensures DaysBeforeMonth(y, i) <= DaysBeforeMonth(y, j)
  {
    if i < j { MonthsGrow(y, i, j - 1); }
  }

  /** Civil dates and day numbers determine each other. */
  lemma CivilDateRoundTrip(y: int, m: nat, d: int)
    requires IsCivilDate(y, m, d)
    ensures DayNumber(y, m, d) >= 0
    ensures var n := DayNumber(y, m, d); YearOf(n) == y && MonthOf(n) == m && DateOf(n) == d
  {
    var n := DayNumber(y, m, d);
    YearsGrow(1, y);
    MonthsFillTheYear(y);
    MonthsGrow(y, m + 1, 12);
    YearIsUnique(n, y);
    var k := MonthOf(n);
    if k < m { MonthsGrow(y, k + 1, m); }
    if m < k { MonthsGrow(y, m + 1, k); }
  }
}
