// What the monthly plan promises about limits, and when applying the template
// twice is applying it once.
module PlanTheorems {
  import opened Wrappers
  import opened Calendar
  import opened Database
  import opened LedgerTheorems
  import opened PostingTheorems
  import opened Plans

  // ---- update_plan_month_atomic ----

  // Dropping the income plans keeps the last value of every expense category
  // and leaves income categories without one.
  lemma {:induction false} ExpensePlansLast(db: Db, plans: seq<(nat, int)>, c: nat)
    requires c in db.categories
    ensures LastPlan(ExpensePlans(db, plans), c)
            == if db.categories[c].kind.Expense? then LastPlan(plans, c) else None
  {
    if |plans| == 0 {
    } else {
      var rest := plans[..|plans| - 1];
      var last := plans[|plans| - 1];
      ExpensePlansLast(db, rest, c);
      var all := ExpensePlans(db, plans);
      if last.0 in db.categories && db.categories[last.0].kind.Expense? {
        assert all[..|all| - 1] == ExpensePlans(db, rest);
      } else {
        assert all == ExpensePlans(db, rest);
      }
    }
  }

  // On success every submitted expense category has its last submitted value
  // as its limit in the active period, no other limit moves, no income
  // category is touched and no limit row appears or disappears.
  lemma PlanMonthSetsLimits(db: Db, plans: seq<(nat, int)>, c: nat)
    requires UpdatePlanMonth(db, plans).Ok? && c in db.categories
    ensures var after := UpdatePlanMonth(db, plans).value;
            && after.limits.Keys == db.limits.Keys && after.categories.Keys == db.categories.Keys
            && ActivePeriod(after) == ActivePeriod(db)
            && (db.categories[c].kind.Income? ==> after.categories[c] == db.categories[c])
            && (forall p: nat :: LimitOf(after, p, c)
                  == if db.categories[c].kind.Expense? && LastPlan(plans, c).Some?
                        && (ActivePeriod(db) == Some(p) || (p, c) !in db.limits)
                     then LastPlan(plans, c).value else LimitOf(db, p, c))
  {
    ExpensePlansLast(db, plans, c);
    hide ExpensePlans, LastPlan, PlanSum, NamesUnknown, LimitsIncome, LatestOf;
  }

  // It succeeds exactly when every category exists, no income category is
  // given a limit, and the expense plans fit the income.
  lemma PlanMonthSucceedsExactly(db: Db, plans: seq<(nat, int)>)
    ensures UpdatePlanMonth(db, plans).Ok? <==>
            && (forall k | 0 <= k < |plans| :: plans[k].0 in db.categories)
            && (forall k | 0 <= k < |plans| && db.categories[plans[k].0].kind.Income? :: plans[k].1 == 0)
            && (db.income.Some? ==> PlanSum(ExpensePlans(db, plans)) <= db.income.value)
  {
  }

  // Plans are not indexed.
  lemma RepricingKeepsUnique(before: map<nat, Category>, after: map<nat, Category>, n: nat)
    requires CategoriesOk(before, n) && after.Keys == before.Keys
    requires forall c | c in before :: after[c] == before[c].(plan := after[c].plan)
    ensures CategoriesOk(after, n)
  {
    forall c | c in after && !after[c].archived
      ensures !LiveClash(after, c, after[c])
    {
      assert !LiveClash(before, c, before[c]);
    }
  }

  lemma PlanMonthSound(db: Db, plans: seq<(nat, int)>)
    requires Wf(db) && Flat(db.actuals)
    ensures var r := UpdatePlanMonth(db, plans); r.Ok? ==> Sound(db, r.value)
  {
    if UpdatePlanMonth(db, plans).Ok? {
      var after := UpdatePlanMonth(db, plans).value;
      assert after.categories.Keys == db.categories.Keys;
      UntouchedMoney(db, after);
      RepricingKeepsUnique(db.categories, after.categories, db.nextCategory);
      hide Flat, KeepsOpenings, AccountsOk, PeriodsOk, ActualsOk, PlannedRowsOk, SubRowsOk,
        PlannedLinksUnique, ChargeDatesUnique, SubLinksUnique, WithPlans, WithLimits, ExpensePlans, PlanSum,
        CategoriesOk;
    }
  }

  // ---- apply_template_to_period ----

  // A template day from 1 on gives a date inside the period.
  lemma TemplateDateInPeriod(period: Period, day: int)
    requires AtMost(period.start, period.end) && day >= 1
    ensures ClampPlannedDate(period, Some(day)).Some?
    ensures Within(period.start, ClampPlannedDate(period, Some(day)).value, period.end)
  {
    var candidate := AddDays(period.start, day - 1);
    OrdinalOrders(period.start, candidate);
    OrdinalOrders(period.end, candidate);
    OrdinalOrders(candidate, period.end);
    hide Ordinal, Before, AddDays;
  }

  lemma {:induction false} LineBecomesRow(
    m: map<nat, Planned>, lines: seq<TemplateLine>, next: nat, id: nat, period: Period, k: nat)
    requires k < |lines|
    ensures var after := WithLines(m, lines, next, id, period);
            next + k in after && after[next + k] == LineRow(lines[k], id, period)
  {
    hide LineRow;
    if k == |lines| - 1 {
    } else {
      LineBecomesRow(m, lines[..|lines| - 1], next, id, period, k);
    }
  }

  lemma {:induction false} LinesKeepRows(m: map<nat, Planned>, lines: seq<TemplateLine>, next: nat, id: nat,
      period: Period)
    requires forall i | i in m :: i < next
    ensures forall i | i in m ::
              i in WithLines(m, lines, next, id, period) && WithLines(m, lines, next, id, period)[i] == m[i]
  {
    hide LineRow;
    if |lines| == 0 {
    } else {
      LinesKeepRows(m, lines[..|lines| - 1], next, id, period);
    }
  }

  // Every template line becomes one unposted manual row of the period with the
  // line's category, kind and amount, under a fresh id.
  lemma TemplateLineRow(db: Db, period: nat, k: nat)
    requires PlannedRowsOk(db.planned, db.nextPlanned, db.periods.Keys, db.subs.Keys, db.actuals.Keys)
    requires period in db.periods && k < |db.templateLines|
    ensures var id := db.nextPlanned + k;
            id !in db.planned && id in Applied(db, period).planned
            && Applied(db, period).planned[id] == LineRow(db.templateLines[k], period, db.periods[period])
  {
    LineBecomesRow(db.planned, db.templateLines, db.nextPlanned, period, db.periods[period], k);
    hide LineRow, TemplateLimits, SyncedPlans, WithLines;
  }

  // Earlier planned rows stay as they are.
  lemma TemplateKeepsRows(db: Db, period: nat)
    requires PlannedRowsOk(db.planned, db.nextPlanned, db.periods.Keys, db.subs.Keys, db.actuals.Keys)
    requires period in db.periods
    ensures forall i | i in db.planned ::
              i in Applied(db, period).planned && Applied(db, period).planned[i] == db.planned[i]
  {
    LinesKeepRows(db.planned, db.templateLines, db.nextPlanned, period, db.periods[period]);
    hide TemplateLimits, SyncedPlans, WithLines;
  }

  lemma FreshLimits(db: Db, period: nat)
    requires period in db.periods && !HasLimits(db, period)
    ensures HasLimits(ApplyTemplate(db, period).value.0, period) <==> db.templateItems != map[]
  {
    var once := ApplyTemplate(db, period).value.0;
    hide SyncedPlans, WithLines;
    if db.templateItems != map[] {
      var c :| c in db.templateItems;
      assert (period, c) in once.limits;
    } else {
      assert TemplateLimits(db.templateItems, period) == map[];
    }
  }

  // Applying the template again changes nothing exactly when the period already
  // had a limit, or the template has at least one limit, or it has no lines.
  lemma ApplyTwiceIsOnceExactly(db: Db, period: nat)
    requires period in db.periods
    ensures var (once, _) := ApplyTemplate(db, period).value;
            var twice := ApplyTemplate(once, period);
            twice.Ok? && (twice.value.0.planned == once.planned && twice.value.0.nextPlanned == once.nextPlanned
                          && twice.value.1 == 0
                          <==> HasLimits(db, period) || db.templateItems != map[] || db.templateLines == [])
            && ((HasLimits(db, period) || db.templateItems != map[]) ==> twice.value == (once, 0))
  {
    var (once, _) := ApplyTemplate(db, period).value;
    if !HasLimits(db, period) {
      FreshLimits(db, period);
    }
    hide SyncedPlans, LineRow, TemplateLimits;
  }

  lemma {:induction false} LinesKeepPlannedOk(
    m: map<nat, Planned>, lines: seq<TemplateLine>, next: nat, id: nat, period: Period,
    periods: set<nat>, subs: set<nat>, actuals: set<nat>)
    requires PlannedRowsOk(m, next, periods, subs, actuals) && PlannedLinksUnique(m) && ChargeDatesUnique(m)
    requires id in periods
    ensures var after := WithLines(m, lines, next, id, period);
            PlannedRowsOk(after, next + |lines|, periods, subs, actuals)
            && PlannedLinksUnique(after) && ChargeDatesUnique(after)
  {
    hide ClampPlannedDate;
    if |lines| == 0 {
    } else {
      LinesKeepPlannedOk(m, lines[..|lines| - 1], next, id, period, periods, subs, actuals);
    }
  }

  lemma AppliedKeepsWf(db: Db, period: nat)
    requires Wf(db) && period in db.periods
    ensures Wf(Applied(db, period))
  {
    LinesKeepPlannedOk(db.planned, db.templateLines, db.nextPlanned, period, db.periods[period],
                       db.periods.Keys, db.subs.Keys, db.actuals.Keys);
    RepricingKeepsUnique(db.categories, SyncedPlans(db.categories, db.templateItems), db.nextCategory);
    assert SyncedPlans(db.categories, db.templateItems).Keys == db.categories.Keys;
    hide AccountsOk, PeriodsOk, ActualsOk, PlannedRowsOk, SubRowsOk, PlannedLinksUnique, ChargeDatesUnique,
      SubLinksUnique, WithLines, SyncedPlans, TemplateLimits, CategoriesOk;
  }

  lemma TemplateEffect(db: Db, period: nat)
    ensures var r := ApplyTemplate(db, period);
            r.Ok? ==>
              && period in db.periods && (r.value.0 == db || r.value.0 == Applied(db, period))
              && r.value.0.accounts == db.accounts && r.value.0.actuals == db.actuals
              && r.value.0.nextActual == db.nextActual
  {
    hide HasLimits, WithLines, SyncedPlans, TemplateLimits;
  }

  lemma ApplyTemplateSound(db: Db, period: nat)
    requires Wf(db) && Flat(db.actuals)
    ensures var r := ApplyTemplate(db, period); r.Ok? ==> Sound(db, r.value.0)
  {
    hide Wf, Flat, KeepsOpenings, ApplyTemplate, Applied;
    TemplateEffect(db, period);
    if ApplyTemplate(db, period).Ok? {
      AppliedKeepsWf(db, period);
      UntouchedMoney(db, ApplyTemplate(db, period).value.0);
    }
  }
}
