// Monthly limits and the plan template (app/services/plan_month.py,
// app/services/planned.py).
module Plans {
  import opened Wrappers
  import opened Calendar
  import opened Database
  import opened Ledger

  // The limit compute_balance reads for a category in a period.
  function LimitOf(db: Db, period: nat, category: nat): int
    requires category in db.categories
  {
    if (period, category) in db.limits then db.limits[(period, category)] else db.categories[category].plan
  }

  // ---- update_plan_month_atomic ----

  predicate NamesUnknown(db: Db, plans: seq<(nat, int)>) {
    exists k | 0 <= k < |plans| :: plans[k].0 !in db.categories
  }

  predicate LimitsIncome(db: Db, plans: seq<(nat, int)>) {
    exists k | 0 <= k < |plans| ::
      plans[k].0 in db.categories && db.categories[plans[k].0].kind.Income? && plans[k].1 != 0
  }

  // The plans that are applied: those of expense categories, in order.
  function ExpensePlans(db: Db, plans: seq<(nat, int)>): seq<(nat, int)> {
    if |plans| == 0 then []
    else
      var last := plans[|plans| - 1];
      ExpensePlans(db, plans[..|plans| - 1])
      + (if last.0 in db.categories && db.categories[last.0].kind.Expense? then [last] else [])
  }

  function PlanSum(plans: seq<(nat, int)>): int {
    if |plans| == 0 then 0 else PlanSum(plans[..|plans| - 1]) + plans[|plans| - 1].1
  }

  // The last value submitted for a category.
  function LastPlan(plans: seq<(nat, int)>, category: nat): Option<int> {
    if |plans| == 0 then None
    else if plans[|plans| - 1].0 == category then Some(plans[|plans| - 1].1)
    else LastPlan(plans[..|plans| - 1], category)
  }

  function WithPlans(m: map<nat, Category>, plans: seq<(nat, int)>): map<nat, Category> {
    map c | c in m :: if LastPlan(plans, c).Some? then m[c].(plan := LastPlan(plans, c).value) else m[c]
  }

  function WithLimits(m: map<(nat, nat), int>, period: Option<nat>, plans: seq<(nat, int)>): map<(nat, nat), int> {
    map k | k in m ::
      if period == Some(k.0) && LastPlan(plans, k.1).Some? then LastPlan(plans, k.1).value else m[k]
  }

  function UpdatePlanMonth(db: Db, plans: seq<(nat, int)>): Result<Db, Error> {
    var expense := ExpensePlans(db, plans);
    if NamesUnknown(db, plans) then Err(CategoryNotInTenant)
    else if LimitsIncome(db, plans) then Err(IncomeLimitForbidden)
    else if db.income.Some? && PlanSum(expense) > db.income.value then Err(PlanOverflow)
    else Ok(db.(categories := WithPlans(db.categories, expense),
                limits := WithLimits(db.limits, ActivePeriod(db), expense)))
  }

  // ---- apply_template_to_period ----

  // A template day as a date: day 1 is the first day of the period, days past
  // its end fall on the last one.
  function ClampPlannedDate(period: Period, dayOfPeriod: Option<int>): Option<Date> {
    if dayOfPeriod.None? then None
    else
      var candidate := AddDays(period.start, dayOfPeriod.value - 1);
      Some(if Before(period.end, candidate) then period.end else candidate)
  }

  predicate HasLimits(db: Db, period: nat) { exists k | k in db.limits :: k.0 == period }

  function LineRow(line: TemplateLine, id: nat, period: Period): Planned {
    Planned(id, line.kind, line.amount, line.category, ClampPlannedDate(period, line.dayOfPeriod), Manual, None, None,
        None)
  }

  // One new row per template line, numbered from `next`.
  function WithLines(m: map<nat, Planned>, lines: seq<TemplateLine>, next: nat, id: nat,
      period: Period): map<nat, Planned> {
    if |lines| == 0 then m
    else
      var last := |lines| - 1;
      WithLines(m, lines[..last], next, id, period)[next + last := LineRow(lines[last], id, period)]
  }

  function TemplateLimits(items: map<nat, int>, period: nat): map<(nat, nat), int> {
    map k | k in (set c | c in items :: (period, c)) :: items[k.1]
  }

  function SyncedPlans(m: map<nat, Category>, items: map<nat, int>): map<nat, Category> {
    map c | c in m :: if c in items && !m[c].kind.Income? then m[c].(plan := items[c]) else m[c]
  }

  // The period with the template copied into it.
  function Applied(db: Db, period: nat): Db
    requires period in db.periods
  {
    db.(limits := db.limits + TemplateLimits(db.templateItems, period),
        categories := SyncedPlans(db.categories, db.templateItems),
        planned := WithLines(db.planned, db.templateLines, db.nextPlanned, period, db.periods[period]),
        nextPlanned := db.nextPlanned + |db.templateLines|)
  }

  // The number of created rows comes back with the database.
  function ApplyTemplate(db: Db, period: nat): Outcome<nat> {
    if period !in db.periods then Err(PeriodNotFound)
    else if HasLimits(db, period) then Ok((db, 0))
    else Ok((Applied(db, period), |db.templateLines|))
  }
}
