// Budget periods: the calendar cut at one day of each month
// (app/core/period.py).
module PeriodEngine {
  import opened Wrappers
  import opened Calendar

  datatype Bounds = Bounds(start: Date, end: Date)

  // ValueError: the cycle start day is below 1.
  datatype CycleError = CycleDayBelowOne

  function ClampDayToMonth(year: int, month: int, day: int): int
    requires 1 <= month <= 12
  {
    Min(day, MonthLength(year, month))
  }

  // The cycle start day of the month that holds d.
  function CycleStart(d: Date, cycleDay: int): (start: Date)
    requires cycleDay >= 1
  {
    YMD(d.year, d.month, ClampDayToMonth(d.year, d.month, cycleDay))
  }

  function PeriodFor(d: Date, cycleDay: int): Result<Bounds, CycleError> {
    if cycleDay < 1 then Err(CycleDayBelowOne)
    else
      var home := if d.day >= ClampDayToMonth(d.year, d.month, cycleDay) then d else AddMonths(d, -1);
      var start := CycleStart(home, cycleDay);
      var nextStart := CycleStart(AddMonths(start, 1), cycleDay);
      Ok(Bounds(start, AddDays(nextStart, -1)))
  }

  // ---- The reference view: period number k runs from anchor k to the day before anchor k + 1 ----

  // The cycle start day of month `index`, clamped to that month.
  function Anchor(index: int, cycleDay: int): (d: Date)
    requires cycleDay >= 1
    ensures MonthIndex(d) == index
  {
    DateAt(index, Min(cycleDay, LengthAt(index)))
  }

  function PeriodIndex(d: Date, cycleDay: int): int {
    if d.day >= Min(cycleDay, LengthAt(MonthIndex(d))) then MonthIndex(d) else MonthIndex(d) - 1
  }

  function PeriodAt(index: int, cycleDay: int): Bounds
    requires cycleDay >= 1
  {
    Bounds(Anchor(index, cycleDay), AddDays(Anchor(index + 1, cycleDay), -1))
  }

  predicate Contains(b: Bounds, d: Date) { Within(b.start, d, b.end) }

  lemma CycleStartIsAnchor(d: Date, cycleDay: int)
    requires cycleDay >= 1
    ensures CycleStart(d, cycleDay) == Anchor(MonthIndex(d), cycleDay)
  {
    DateIsItsIndexAndDay(d);
  }

  lemma PeriodForIsPeriodAt(d: Date, cycleDay: int)
    requires cycleDay >= 1
    ensures PeriodFor(d, cycleDay) == Ok(PeriodAt(PeriodIndex(d, cycleDay), cycleDay))
  {
    hide CycleStart, Anchor, LengthAt, MonthIndex, AddDays;
    DateIsItsIndexAndDay(d);
    var home := if d.day >= ClampDayToMonth(d.year, d.month, cycleDay) then d else AddMonths(d, -1);
    assert MonthIndex(home) == PeriodIndex(d, cycleDay);
    CycleStartIsAnchor(home, cycleDay);
    CycleStartIsAnchor(AddMonths(CycleStart(home, cycleDay), 1), cycleDay);
  }

  // Being in period k is lying between anchor k (included) and anchor k + 1 (excluded).
  lemma ContainsByAnchors(d: Date, index: int, cycleDay: int)
    requires cycleDay >= 1
    ensures Contains(PeriodAt(index, cycleDay), d) <==>
            AtMost(Anchor(index, cycleDay), d) && Before(d, Anchor(index + 1, cycleDay))
  {
    hide Ordinal, Anchor;
    OrdinalOrders(d, Anchor(index + 1, cycleDay));
    OrdinalOrders(PeriodAt(index, cycleDay).end, d);
    OrdinalOrders(d, PeriodAt(index, cycleDay).end);
  }

  // Every date lies in the period of its own index and in no other.
  lemma PeriodIndexIsTheOnly(d: Date, index: int, cycleDay: int)
    requires cycleDay >= 1
    ensures Contains(PeriodAt(index, cycleDay), d) <==> index == PeriodIndex(d, cycleDay)
  {
    hide LengthAt;
    ContainsByAnchors(d, index, cycleDay);
    OrderByIndex(Anchor(index, cycleDay), d);
    OrderByIndex(d, Anchor(index + 1, cycleDay));
    DateIsItsIndexAndDay(d);
  }

  // ---- What period_for promises ----

  // The periods partition the calendar: the result contains d, and every date
  // has the same result exactly when it lies inside that result.
  lemma PeriodForPartitions(d: Date, e: Date, cycleDay: int)
    requires cycleDay >= 1
    ensures PeriodFor(d, cycleDay).Ok?
    ensures Contains(PeriodFor(d, cycleDay).value, d)
    ensures Contains(PeriodFor(d, cycleDay).value, e) <==> PeriodFor(e, cycleDay) == PeriodFor(d, cycleDay)
  {
    hide PeriodFor, Anchor;
    PeriodForIsPeriodAt(d, cycleDay);
    PeriodForIsPeriodAt(e, cycleDay);
    PeriodIndexIsTheOnly(d, PeriodIndex(d, cycleDay), cycleDay);
    PeriodIndexIsTheOnly(e, PeriodIndex(d, cycleDay), cycleDay);
    PeriodIndexIsTheOnly(e, PeriodIndex(e, cycleDay), cycleDay);
  }

  // The day after a period's end starts the next period, and a period's start
  // is the first day mapped to it.
  lemma PeriodsAbut(d: Date, cycleDay: int)
    requires cycleDay >= 1
    ensures PeriodFor(d, cycleDay).Ok?
    ensures var after := AddDays(PeriodFor(d, cycleDay).value.end, 1);
            PeriodFor(after, cycleDay).Ok? && PeriodFor(after, cycleDay).value.start == after
            && PeriodIndex(after, cycleDay) == PeriodIndex(d, cycleDay) + 1
  {
    hide PeriodFor;
    PeriodForIsPeriodAt(d, cycleDay);
    var next := Anchor(PeriodIndex(d, cycleDay) + 1, cycleDay);
    DayBeforeAndAfter(next);
    PeriodForIsPeriodAt(next, cycleDay);
  }

  lemma {:induction false} AnchorsAscend(i: int, j: int, cycleDay: int)
    requires cycleDay >= 1
    ensures i < j <==> Before(Anchor(i, cycleDay), Anchor(j, cycleDay))
  {
    hide LengthAt;
    OrderByIndex(Anchor(i, cycleDay), Anchor(j, cycleDay));
  }

  lemma PeriodIndexMonotone(d: Date, e: Date, cycleDay: int)
    requires AtMost(d, e)
    ensures PeriodIndex(d, cycleDay) <= PeriodIndex(e, cycleDay)
  {
    hide LengthAt, MonthIndex, Before;
    OrderByIndex(d, e);
  }

  // Later dates never get an earlier period.
  lemma PeriodStartsMonotone(d: Date, e: Date, cycleDay: int)
    requires cycleDay >= 1 && AtMost(d, e)
    ensures PeriodFor(d, cycleDay).Ok? && PeriodFor(e, cycleDay).Ok?
    ensures AtMost(PeriodFor(d, cycleDay).value.start, PeriodFor(e, cycleDay).value.start)
  {
    hide PeriodFor, LengthAt, Anchor, PeriodIndex, Before;
    PeriodForIsPeriodAt(d, cycleDay);
    PeriodForIsPeriodAt(e, cycleDay);
    PeriodIndexMonotone(d, e, cycleDay);
    AnchorsAscend(PeriodIndex(d, cycleDay), PeriodIndex(e, cycleDay), cycleDay);
  }

  // Every period lasts 28 to 31 days, whatever the clamping at its two ends.
  lemma PeriodLength(d: Date, cycleDay: int)
    requires cycleDay >= 1
    ensures PeriodFor(d, cycleDay).Ok?
    ensures var b := PeriodFor(d, cycleDay).value;
            28 <= Ordinal(b.end) - Ordinal(b.start) + 1 <= 31
  {
    hide PeriodFor, LengthAt, Ordinal, FirstOf;
    PeriodForIsPeriodAt(d, cycleDay);
    var k := PeriodIndex(d, cycleDay);
    OrdinalByIndex(Anchor(k, cycleDay));
    OrdinalByIndex(Anchor(k + 1, cycleDay));
    MonthsAbut(k);
  }
}
