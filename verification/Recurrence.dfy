// The running cursor of a recurring payment: month steps with an optional
// fixed day (app/services/subscriptions.py, `_advance_date`).
module Recurrence {
  import opened Wrappers
  import opened Calendar
  import opened PeriodEngine

  function ClampDayOfMonth(dayOfMonth: int): int { Min(Max(dayOfMonth, 1), 28) }

  function AdvanceDate(anchor: Date, interval: int, dayOfMonth: Option<int>): (next: Date)
    ensures MonthIndex(next) == MonthIndex(anchor) + interval
    ensures next.day == match dayOfMonth
                        case None => Min(anchor.day, LengthAt(MonthIndex(anchor) + interval))
                        case Some(dom) => ClampDayOfMonth(dom)
  {
    var next := AddMonths(anchor, interval);
    match dayOfMonth
    case None => next
    case Some(dom) => YMD(next.year, next.month, ClampDayOfMonth(dom))
  }

  // The cursor after n advances.
  function Charge(first: Date, interval: int, dayOfMonth: Option<int>, n: nat): Date {
    if n == 0 then first
    else AdvanceDate(Charge(first, interval, dayOfMonth, n - 1), interval, dayOfMonth)
  }

  // The charge day is already the fixed day, or there is no fixed day.
  predicate DayAgrees(d: Date, dayOfMonth: Option<int>) {
    dayOfMonth.Some? ==> d.day == ClampDayOfMonth(dayOfMonth.value)
  }

  // ---- Strict progress ----

  lemma AdvanceIsLater(d: Date, interval: int, dayOfMonth: Option<int>)
    requires interval >= 1
    ensures Before(d, AdvanceDate(d, interval, dayOfMonth))
  {
    OrderByIndex(d, AdvanceDate(d, interval, dayOfMonth));
  }

  lemma BeforeIsTransitive(a: Date, b: Date, c: Date)
    requires AtMost(a, b) && Before(b, c)
    ensures Before(a, c)
  {
  }

  lemma {:induction false} ChargesAscend(first: Date, interval: int, dayOfMonth: Option<int>, m: nat, n: nat)
    requires interval >= 1
    ensures m < n ==> Before(Charge(first, interval, dayOfMonth, m), Charge(first, interval, dayOfMonth, n))
    decreases n
  {
    hide AdvanceDate, Before;
    if m >= n {
    } else {
      var previous := Charge(first, interval, dayOfMonth, n - 1);
      AdvanceIsLater(previous, interval, dayOfMonth);
      ChargesAscend(first, interval, dayOfMonth, m, n - 1);
      BeforeIsTransitive(Charge(first, interval, dayOfMonth, m), previous, AdvanceDate(previous, interval, dayOfMonth));
    }
  }

  // ---- Where the charges fall ----

  // One advance moves the charge by exactly `interval` periods unless fixing
  // the day carries it across the cycle start day.
  lemma AdvanceShiftsPeriod(d: Date, interval: int, dayOfMonth: Option<int>, cycleDay: int)
    requires 1 <= cycleDay <= 28
    ensures PeriodIndex(AdvanceDate(d, interval, dayOfMonth), cycleDay) == PeriodIndex(d, cycleDay) + interval
            <==> (dayOfMonth.None? || (d.day >= cycleDay <==> ClampDayOfMonth(dayOfMonth.value) >= cycleDay))
  {
  }

  lemma {:induction false} ChargeDayKeepsItsSide(
    first: Date, interval: int, dayOfMonth: Option<int>, n: nat, cycleDay: int)
    requires 1 <= cycleDay <= 28 && DayAgrees(first, dayOfMonth)
    ensures DayAgrees(Charge(first, interval, dayOfMonth, n), dayOfMonth)
    ensures PeriodIndex(Charge(first, interval, dayOfMonth, n), cycleDay)
            == PeriodIndex(first, cycleDay) + n * interval
  {
    hide PeriodIndex, LengthAt;
    if n == 0 {
    } else {
      var previous := Charge(first, interval, dayOfMonth, n - 1);
      ChargeDayKeepsItsSide(first, interval, dayOfMonth, n - 1, cycleDay);
      AdvanceShiftsPeriod(previous, interval, dayOfMonth, cycleDay);
      assert n * interval == (n - 1) * interval + interval;
    }
  }

  // Charge n falls in period k exactly when k is n * interval periods after
  // the first charge's period.
  lemma ChargeFallsInPeriod(
    first: Date, interval: int, dayOfMonth: Option<int>, n: nat, cycleDay: int, k: int)
    requires 1 <= cycleDay <= 28 && DayAgrees(first, dayOfMonth)
    ensures Contains(PeriodAt(k, cycleDay), Charge(first, interval, dayOfMonth, n))
            <==> k == PeriodIndex(first, cycleDay) + n * interval
  {
    hide Contains, PeriodAt, PeriodIndex, Charge;
    ChargeDayKeepsItsSide(first, interval, dayOfMonth, n, cycleDay);
    PeriodIndexIsTheOnly(Charge(first, interval, dayOfMonth, n), k, cycleDay);
  }

  // A monthly payment is charged exactly once in every period from the first on.
  lemma MonthlyChargeOncePerPeriod(first: Date, dayOfMonth: Option<int>, cycleDay: int, k: int)
    requires 1 <= cycleDay <= 28 && DayAgrees(first, dayOfMonth)
    requires k >= PeriodIndex(first, cycleDay)
    ensures forall n: nat :: Contains(PeriodAt(k, cycleDay), Charge(first, 1, dayOfMonth, n))
                             <==> n == k - PeriodIndex(first, cycleDay)
  {
    forall n: nat
      ensures Contains(PeriodAt(k, cycleDay), Charge(first, 1, dayOfMonth, n))
              <==> n == k - PeriodIndex(first, cycleDay)
    {
      ChargeFallsInPeriod(first, 1, dayOfMonth, n, cycleDay, k);
    }
  }

  // ---- n advances of i months against one advance of n * i months ----

  lemma {:induction false} ChargeMonth(first: Date, interval: int, dayOfMonth: Option<int>, n: nat)
    ensures MonthIndex(Charge(first, interval, dayOfMonth, n)) == MonthIndex(first) + n * interval
  {
    hide MonthIndex, LengthAt;
    if n == 0 {
    } else {
      ChargeMonth(first, interval, dayOfMonth, n - 1);
      assert n * interval == (n - 1) * interval + interval;
    }
  }

  lemma SameMonthSameDay(a: Date, b: Date)
    requires MonthIndex(a) == MonthIndex(b) && a.day == b.day
    ensures a == b
  {
    DateIsItsIndexAndDay(a);
    DateIsItsIndexAndDay(b);
  }

  // With a fixed day the steps compose.
  lemma AdvancesCompose(first: Date, interval: int, dayOfMonth: int, n: nat)
    requires n >= 1
    ensures Charge(first, interval, Some(dayOfMonth), n) == AdvanceDate(first, n * interval, Some(dayOfMonth))
  {
    hide MonthIndex;
    ChargeMonth(first, interval, Some(dayOfMonth), n);
    SameMonthSameDay(Charge(first, interval, Some(dayOfMonth), n),
                     AdvanceDate(first, n * interval, Some(dayOfMonth)));
  }

  // Without one, every month passed through leaves its clamp behind.
  lemma {:induction false} ChargeDay(first: Date, interval: int, n: nat, day: int)
    requires n >= 1
    ensures Charge(first, interval, None, n).day >= day
            <==> first.day >= day && forall k | 1 <= k <= n :: LengthAt(MonthIndex(first) + k * interval) >= day
  {
    hide MonthIndex, LengthAt;
    ChargeMonth(first, interval, None, n - 1);
    assert n * interval == (n - 1) * interval + interval;
    if n <= 1 {
    } else {
      ChargeDay(first, interval, n - 1, day);
    }
  }

  // So the steps compose exactly when no month in between is too short.
  lemma FreeAdvancesCompose(first: Date, interval: int, n: nat)
    requires n >= 1
    ensures Charge(first, interval, None, n) == AdvanceDate(first, n * interval, None)
            <==> forall k | 1 <= k < n :: LengthAt(MonthIndex(first) + k * interval)
                                          >= Min(first.day, LengthAt(MonthIndex(first) + n * interval))
  {
    hide MonthIndex, LengthAt, Charge;
    var direct := AdvanceDate(first, n * interval, None);
    var stepped := Charge(first, interval, None, n);
    ChargeMonth(first, interval, None, n);
    ChargeDay(first, interval, n, direct.day);
    ChargeDay(first, interval, n, direct.day + 1);
    if stepped.day == direct.day {
      SameMonthSameDay(stepped, direct);
    }
  }

  // January 31 stepped twice by a month is March 28, not March 31.
  lemma FreeAdvancesNeedNotCompose()
    ensures Charge(YMD(2026, 1, 31), 1, None, 2) == YMD(2026, 3, 28)
    ensures AdvanceDate(YMD(2026, 1, 31), 2, None) == YMD(2026, 3, 31)
  {
    hide AdvanceDate;
    var january: Date, february: Date, march: Date := YMD(2026, 1, 31), YMD(2026, 2, 28), YMD(2026, 3, 28);
    assert Charge(january, 1, None, 1) == AdvanceDate(january, 1, None);
    SameMonthSameDay(AdvanceDate(january, 1, None), february);
    SameMonthSameDay(AdvanceDate(february, 1, None), march);
    SameMonthSameDay(AdvanceDate(january, 2, None), YMD(2026, 3, 31));
  }
}
