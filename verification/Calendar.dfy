// Calendar dates as Python's `datetime.date` and dateutil's `relativedelta`
// see them: (year, month, day) triples with a bijection to day numbers.
module Calendar {

  datatype YMD = YMD(year: int, month: int, day: int)

  predicate IsLeap(year: int) {
    year % 4 == 0 && (year % 100 != 0 || year % 400 == 0)
  }

  function MonthLength(year: int, month: int): (n: int)
    requires 1 <= month <= 12
    ensures 28 <= n <= 31
  {
    if month == 2 then (if IsLeap(year) then 29 else 28)
    else if month in {4, 6, 9, 11} then 30
    else 31
  }

  predicate IsDate(d: YMD) {
    1 <= d.month <= 12 && 1 <= d.day <= MonthLength(d.year, d.month)
  }

  type Date = d: YMD | IsDate(d) witness YMD(1, 1, 1)

  function Min(a: int, b: int): int { if a <= b then a else b }

  function Max(a: int, b: int): int { if a <= b then b else a }

  // ---- Months counted in one line: month index 12 * year + (month - 1) ----

  function MonthIndex(d: Date): int { 12 * d.year + d.month - 1 }

  function LengthAt(index: int): (n: int)
    ensures 28 <= n <= 31
  {
    MonthLength(index / 12, index % 12 + 1)
  }

  function DateAt(index: int, day: int): (d: Date)
    requires 1 <= day <= LengthAt(index)
    ensures MonthIndex(d) == index && d.day == day
  {
    YMD(index / 12, index % 12 + 1, day)
  }

  lemma DateIsItsIndexAndDay(d: Date)
    ensures LengthAt(MonthIndex(d)) == MonthLength(d.year, d.month)
    ensures DateAt(MonthIndex(d), d.day) == d
  {
  }

  // ---- Order ----

  // `a < b` on dates.
  predicate Before(a: Date, b: Date) {
    a.year < b.year
    || (a.year == b.year && (a.month < b.month || (a.month == b.month && a.day < b.day)))
  }

  // `a <= b` on dates.
  predicate AtMost(a: Date, b: Date) { a == b || Before(a, b) }

  predicate Within(lo: Date, d: Date, hi: Date) { AtMost(lo, d) && AtMost(d, hi) }

  lemma OrderByIndex(a: Date, b: Date)
    ensures Before(a, b) <==>
            MonthIndex(a) < MonthIndex(b) || (MonthIndex(a) == MonthIndex(b) && a.day < b.day)
  {
  }

  // ---- Day numbers ----

  // Days before January 1st of `year`, counted from 0001-01-01.
  function DaysBeforeYear(year: int): int {
    var y := year - 1;
    365 * y + y / 4 - y / 100 + y / 400
  }

  function DaysBeforeMonth(year: int, month: int): int
    requires 1 <= month <= 12
  {
    [0, 31, 59, 90, 120, 151, 181, 212, 243, 273, 304, 334][month - 1]
    + (if month > 2 && IsLeap(year) then 1 else 0)
  }

  // Day number of the first day of a month.
  function FirstOf(index: int): int {
    DaysBeforeYear(index / 12) + DaysBeforeMonth(index / 12, index % 12 + 1) + 1
  }

  // `date.toordinal()`: day 1 is 0001-01-01.
  function Ordinal(d: Date): int {
    DaysBeforeYear(d.year) + DaysBeforeMonth(d.year, d.month) + d.day
  }

  lemma OrdinalByIndex(d: Date)
    ensures Ordinal(d) == FirstOf(MonthIndex(d)) + d.day - 1
  {
  }

  lemma QuotientStep(y: int, k: int)
    requires k in {4, 100, 400}
    ensures (y + 1) / k == y / k + (if (y + 1) % k == 0 then 1 else 0)
  {
  }

  lemma CenturiesDivideByFour(year: int)
    ensures year % 100 == 0 ==> year % 4 == 0
  {
    if year % 100 == 0 {
      assert year == 4 * (25 * (year / 100));
    }
  }

  lemma FourCenturiesDivideByCentury(year: int)
    ensures year % 400 == 0 ==> year % 100 == 0
  {
    if year % 400 == 0 {
      assert year == 100 * (4 * (year / 400));
    }
  }

  lemma YearLength(year: int)
    ensures DaysBeforeYear(year + 1) == DaysBeforeYear(year) + (if IsLeap(year) then 366 else 365)
  {
    QuotientStep(year - 1, 4);
    QuotientStep(year - 1, 100);
    QuotientStep(year - 1, 400);
    CenturiesDivideByFour(year);
    FourCenturiesDivideByCentury(year);
  }

  lemma MonthsAbut(index: int)
    ensures FirstOf(index + 1) == FirstOf(index) + LengthAt(index)
  {
    if index % 12 == 11 {
      YearLength(index / 12);
    }
  }

  lemma {:induction false} FirstsAscend(i: int, j: int)
    requires i < j
    ensures FirstOf(i) + LengthAt(i) <= FirstOf(j)
    decreases j - i
  {
    hide FirstOf, LengthAt;
    MonthsAbut(i);
    if i + 1 == j {
    } else {
      FirstsAscend(i + 1, j);
    }
  }

  // Day numbers order dates, so they also tell them apart.
  lemma OrdinalOrders(a: Date, b: Date)
    ensures Before(a, b) <==> Ordinal(a) < Ordinal(b)
    ensures a == b <==> Ordinal(a) == Ordinal(b)
  {
    hide FirstOf, LengthAt, Ordinal;
    OrdinalByIndex(a);
    OrdinalByIndex(b);
    DateIsItsIndexAndDay(a);
    DateIsItsIndexAndDay(b);
    if MonthIndex(a) < MonthIndex(b) {
      FirstsAscend(MonthIndex(a), MonthIndex(b));
    } else if MonthIndex(b) < MonthIndex(a) {
      FirstsAscend(MonthIndex(b), MonthIndex(a));
    }
  }

  // 400 years are 146097 days; any year start is within two days of that line.
  lemma YearStartsOnLine(year: int)
    ensures -699 <= 400 * DaysBeforeYear(year) - 146097 * (year - 1) <= 396
  {
    var y := year - 1;
    assert 4 * (y / 4) == y - y % 4;
    assert 100 * (y / 100) == y - y % 100;
    assert 400 * (y / 400) == y - y % 400;
  }

  function YearOf(n: int): (year: int)
    ensures DaysBeforeYear(year) < n <= DaysBeforeYear(year + 1)
  {
    var guess := (400 * (n - 1)) / 146097 + 1;
    YearStartsOnLine(guess - 1);
    YearStartsOnLine(guess);
    YearStartsOnLine(guess + 1);
    YearStartsOnLine(guess + 2);
    if n <= DaysBeforeYear(guess) then guess - 1
    else if n <= DaysBeforeYear(guess + 1) then guess
    else guess + 1
  }

  // The last month not after `month` that starts before day `r` of the year.
  function MonthOf(year: int, r: int, month: int): (m: int)
    requires 1 <= month <= 12 && 1 <= r
    requires month < 12 ==> r <= DaysBeforeMonth(year, month + 1)
    ensures 1 <= m <= month && DaysBeforeMonth(year, m) < r
    ensures m < 12 ==> r <= DaysBeforeMonth(year, m + 1)
  {
    if DaysBeforeMonth(year, month) < r then month else MonthOf(year, r, month - 1)
  }

  // `date.fromordinal(n)`.
  function FromOrdinal(n: int): (d: Date)
    ensures Ordinal(d) == n
  {
    var year := YearOf(n);
    YearLength(year);
    var month := MonthOf(year, n - DaysBeforeYear(year), 12);
    YMD(year, month, n - DaysBeforeYear(year) - DaysBeforeMonth(year, month))
  }

  // Dates and day numbers are in bijection.
  lemma OrdinalRoundTrip(d: Date)
    ensures FromOrdinal(Ordinal(d)) == d
  {
    OrdinalOrders(FromOrdinal(Ordinal(d)), d);
  }

  // ---- Arithmetic ----

  // `d + timedelta(days=k)`.
  function AddDays(d: Date, k: int): (e: Date)
    ensures Ordinal(e) == Ordinal(d) + k
  {
    FromOrdinal(Ordinal(d) + k)
  }

  // `d + relativedelta(months=k)`: the day is clamped to the target month.
  function AddMonths(d: Date, k: int): (e: Date)
    ensures MonthIndex(e) == MonthIndex(d) + k
    ensures e.day == Min(d.day, LengthAt(MonthIndex(d) + k))
  {
    DateAt(MonthIndex(d) + k, Min(d.day, LengthAt(MonthIndex(d) + k)))
  }

  lemma DayBeforeAndAfter(d: Date)
    ensures AddDays(AddDays(d, -1), 1) == d
    ensures AddDays(AddDays(d, 1), -1) == d
  {
    OrdinalOrders(AddDays(AddDays(d, -1), 1), d);
    OrdinalOrders(AddDays(AddDays(d, 1), -1), d);
  }
}
