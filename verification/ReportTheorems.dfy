// The report through its grouped maps against plain folds over the rows
// (app/services/actual.py).
module ReportTheorems {
  import opened Wrappers
  import opened Sums
  import opened Database
  import opened LedgerTheorems
  import opened Balances
  import opened Plans
  import opened PlanTheorems
  import opened Reports

  // ---- Signed groups ----

  function SignedAt(db: Db, period: nat): Key -> int {
    GroupSums(PeriodShare(db.actuals, period), ActualKey(db.actuals), db.nextActual)
  }

  // The group sum of the signed amounts is the group sum of the sizes, negated
  // for expenses.
  lemma SignedGroup(db: Db, period: nat, k: Key)
    ensures SignedAt(db, period)(k) == Signed(k.1, 0, ActualAt(db, period)(k))
  {
    var m, n := db.actuals, db.nextActual;
    var signed := Group(PeriodShare(m, period), ActualKey(m), k);
    var size := Group(ActualSize(m, period), ActualKey(m), k);
    if k.1.Expense? {
      var none := (i: nat) => 0;
      SumZero(none, n);
      SumAdds(signed, size, none, n);
    } else {
      SumSame(signed, size, n);
    }
  }

  // Rows of the period whose key is among some keys.
  function RowsIn(db: Db, period: nat, s: set<Key>): nat -> int {
    KeyedIn(PeriodShare(db.actuals, period), ActualKey(db.actuals), s)
  }

  lemma SignedKeys(db: Db, period: nat, s: set<Key>)
    ensures SetSum(s, SignedAt(db, period)) == Sum(RowsIn(db, period, s), db.nextActual)
  {
    SomeGroupsAddUp(s, PeriodShare(db.actuals, period), ActualKey(db.actuals), db.nextActual);
  }

  // Income groups less expense groups, over one selection of keys.
  lemma IncomeLessExpense(db: Db, period: nat, income: set<Key>, expense: set<Key>)
    requires (forall k | k in income :: k.1.Income?) && (forall k | k in expense :: k.1.Expense?)
    ensures SetSum(income, ActualAt(db, period)) - SetSum(expense, ActualAt(db, period))
            == Sum(RowsIn(db, period, income + expense), db.nextActual)
  {
    var fact, signed := ActualAt(db, period), SignedAt(db, period);
    forall k: Key
      ensures signed(k) == Signed(k.1, 0, fact(k))
    {
      SignedGroup(db, period, k);
    }
    hide ActualAt, SignedAt;
    SetSumSame(income, fact, signed);
    var none := (k: Key) => 0;
    SetSumShrinks({}, expense, none);
    SetSumAdds(expense, fact, signed, none);
    SetSumUnion(income, expense, signed);
    SignedKeys(db, period, income + expense);
  }

  // ---- balance_now ----

  // The grouped balance is the start plus one signed fold over the period.
  lemma BalanceNowIsTheFold(db: Db, period: nat)
    requires period in db.periods
    ensures ReportOf(db, period).balanceNow == BalanceNow(db, period)
  {
    var keys := ActualKeys(db.actuals, period);
    IncomeLessExpense(db, period, OfKind(keys, Income), OfKind(keys, Expense));
    SumSame(RowsIn(db, period, OfKind(keys, Income) + OfKind(keys, Expense)), PeriodShare(db.actuals, period),
        db.nextActual);
  }

  // ---- Plans ----

  function PlannedAt(lines: map<Key, Line>): Key -> int { (k: Key) => if k in lines then lines[k].planned else 0 }

  function DeltaAt(lines: map<Key, Line>): Key -> int { (k: Key) => if k in lines then lines[k].delta else 0 }

  lemma ShownPlans(db: Db, period: nat)
    ensures SetSum(ShownKeys(db, period), PlanAt(db, period)) == SetSum(PlanKeys(db), PlanAt(db, period))
  {
    assert PlanKeys(db) <= ShownKeys(db, period);
    SetSumShrinks(PlanKeys(db), ShownKeys(db, period), PlanAt(db, period));
  }

  // The planned expense total is the sum of the plans of the listed categories.
  lemma PlannedTotalIsListed(db: Db, period: nat)
    requires period in db.periods
    ensures var r := ReportOf(db, period); r.plannedExpense == SetSum(r.lines.Keys, PlannedAt(r.lines))
  {
    var lines := ReportOf(db, period).lines;
    ShownPlans(db, period);
    assert lines.Keys == ShownKeys(db, period);
    hide ShownKeys, PlanAt, ActualAt, ScheduledAt;
    SetSumSame(lines.Keys, PlannedAt(lines), PlanAt(db, period));
  }

  // Every expense category on the ladder is listed with its limit, the last
  // one a monthly plan update submitted.
  lemma ListedWithItsLimit(db: Db, period: nat, c: nat)
    requires period in db.periods && OnLadder(db, c) && db.categories[c].kind.Expense?
    ensures var lines := ReportOf(db, period).lines;
            (c, Expense) in lines && lines[(c, Expense)].planned == LimitOf(db, period, c)
  {
    assert (c, Expense) in PlanKeys(db);
    assert (c, Expense) in ShownKeys(db, period);
  }

  lemma PlanMonthReachesReport(db: Db, plans: seq<(nat, int)>, period: nat, c: nat)
    requires UpdatePlanMonth(db, plans).Ok? && ActivePeriod(db) == Some(period)
    requires OnLadder(db, c) && db.categories[c].kind.Expense? && LastPlan(plans, c).Some?
    ensures var after := UpdatePlanMonth(db, plans).value;
            && ActivePeriod(after) == Some(period)
            && (c, Expense) in ReportOf(after, period).lines
            && ReportOf(after, period).lines[(c, Expense)].planned == LastPlan(plans, c).value
  {
    var after := UpdatePlanMonth(db, plans).value;
    PlanMonthSetsLimits(db, plans, c);
    assert LimitOf(after, period, c) == LastPlan(plans, c).value;
    hide ExpensePlans, PlanSum, NamesUnknown, LimitsIncome, LatestOf, ReportOf, LimitOf;
    assert OnLadder(after, c) && after.categories[c].kind.Expense?;
    ListedWithItsLimit(after, period, c);
  }

  // ---- delta_total ----

  // Rows of the period in categories that are archived, and so not listed.
  function ArchivedShare(db: Db, period: nat): nat -> int {
    (i: nat) => if i in db.actuals && !Active(db, db.actuals[i].category) then PeriodShare(db.actuals, period)(i) else 0
  }

  // Listed deltas: the listed plans plus the signed rows of listed categories.
  lemma ListedDeltas(db: Db, period: nat)
    requires period in db.periods
    ensures var r := ReportOf(db, period);
            SetSum(r.lines.Keys, DeltaAt(r.lines))
            == r.plannedExpense + Sum(RowsIn(db, period, ShownKeys(db, period)), db.nextActual)
  {
    var lines := ReportOf(db, period).lines;
    var plan, fact, signed := PlanAt(db, period), ActualAt(db, period), SignedAt(db, period);
    ShownPlans(db, period);
    SignedKeys(db, period, ShownKeys(db, period));
    forall k | k in lines
      ensures DeltaAt(lines)(k) == plan(k) + signed(k)
    {
      SignedGroup(db, period, k);
      assert k in PlanKeys(db) ==> k.1 == Expense;
    }
    assert lines.Keys == ShownKeys(db, period);
    hide ShownKeys, PlanAt, ActualAt, ScheduledAt, SignedAt, LineAt, PlanKeys;
    SetSumAdds(lines.Keys, plan, signed, DeltaAt(lines));
  }

  lemma LadderRowsSplit(db: Db, period: nat)
    ensures Sum(RowsIn(db, period, OnLadderOf(db, period, Income) + OnLadderOf(db, period, Expense)), db.nextActual)
            == Sum(RowsIn(db, period, ShownKeys(db, period)), db.nextActual) + Sum(ArchivedShare(db, period),
                db.nextActual)
  {
    var m := db.actuals;
    var ladder := OnLadderOf(db, period, Income) + OnLadderOf(db, period, Expense);
    var shown := ShownKeys(db, period);
    forall i: nat | i < db.nextActual
      ensures RowsIn(db, period, ladder)(i) == RowsIn(db, period, shown)(i) + ArchivedShare(db, period)(i)
    {
      if InReport(m, period, i) {
        var k := (m[i].category, m[i].kind);
        assert k in ActualKeys(m, period);
        assert k in shown <==> OnLadder(db, k.0);
        assert k in ladder <==> !ActiveSystem(db, k.0);
      }
    }
    SumAdds(RowsIn(db, period, shown), ArchivedShare(db, period), RowsIn(db, period, ladder), db.nextActual);
  }

  // delta_total plus the planned income is the sum of the listed deltas plus
  // the archived income less the archived expense.
  lemma DeltaTotalExplained(db: Db, period: nat)
    requires period in db.periods
    ensures var r := ReportOf(db, period);
            r.deltaTotal + r.plannedIncome
                == SetSum(r.lines.Keys, DeltaAt(r.lines)) + Sum(ArchivedShare(db, period), db.nextActual)
  {
    IncomeLessExpense(db, period, OnLadderOf(db, period, Income), OnLadderOf(db, period, Expense));
    LadderRowsSplit(db, period);
    ListedDeltas(db, period);
    hide RowsIn, ArchivedShare, ShownKeys, ActualAt, PlanAt, PlanKeys, DeltaAt, ActualKeys, OnLadderOf, LineAt;
  }

  // ---- The report step by step ----

  function At(g: map<Key, int>): Key -> int { (k: Key) => if k in g then g[k] else 0 }

  lemma GroupGrows(size: nat -> int, key: nat -> Key, i: nat, k: Key)
    ensures GroupSums(size, key, i + 1)(k) == GroupSums(size, key, i)(k) + (if key(i) == k then size(i) else 0)
  {
  }

  // The GROUP BY query: one pass over the rows.
  method GroupBy(selected: nat -> bool, key: nat -> Key, size: nat -> int, n: nat) returns (g: map<Key, int>)
    requires forall i: nat | !selected(i) :: size(i) == 0
    ensures forall k | k in g :: exists i: nat :: i < n && selected(i) && key(i) == k
    ensures forall i: nat | i < n && selected(i) :: key(i) in g
    ensures forall k :: At(g)(k) == GroupSums(size, key, n)(k)
  {
    g := map[];
    for i := 0 to n
      invariant forall k | k in g :: exists j: nat :: j < i && selected(j) && key(j) == k
      invariant forall j: nat | j < i && selected(j) :: key(j) in g
      invariant forall k :: At(g)(k) == GroupSums(size, key, i)(k)
    {
      ghost var before := At(g);
      if selected(i) {
        g := g[key(i) := (if key(i) in g then g[key(i)] else 0) + size(i)];
      }
      forall k
        ensures At(g)(k) == GroupSums(size, key, i + 1)(k)
      {
        GroupGrows(size, key, i, k);
        assert At(g)(k) == before(k) + if key(i) == k then size(i) else 0;
      }
    }
  }

  method SumValues(g: map<Key, int>, keys: set<Key>) returns (total: int)
    requires keys <= g.Keys
    ensures total == SetSum(keys, At(g))
  {
    total := 0;
    var left := keys;
    while left != {}
      invariant left <= keys
      invariant total + SetSum(left, At(g)) == SetSum(keys, At(g))
      decreases |left|
    {
      var k :| k in left;
      SetSumTakes(left, At(g), k);
      total := total + g[k];
      left := left - {k};
    }
  }

  function LineOf(plans: map<Key, int>, facts: map<Key, int>, scheduled: map<Key, int>, k: Key): Line {
    Line(At(plans)(k), At(scheduled)(k), At(facts)(k), Signed(k.1, At(plans)(k), At(facts)(k)))
  }

  method MakeLine(plans: map<Key, int>, facts: map<Key, int>, scheduled: map<Key, int>, k: Key) returns (line: Line)
    ensures line == LineOf(plans, facts, scheduled, k)
  {
    var plan := if k in plans then plans[k] else 0;
    var fact := if k in facts then facts[k] else 0;
    var unposted := if k in scheduled then scheduled[k] else 0;
    var delta := if k.1.Expense? then plan - fact else fact - plan;
    line := Line(plan, unposted, fact, delta);
  }

  method ListLines(db: Db, plans: map<Key, int>, facts: map<Key, int>, scheduled: map<Key, int>)
    returns (lines: map<Key, Line>)
    ensures forall k: Key :: k in lines <==> k in plans.Keys + facts.Keys + scheduled.Keys && OnLadder(db, k.0)
    ensures forall k | k in lines :: lines[k] == LineOf(plans, facts, scheduled, k)
  {
    hide OnLadder, LineOf;
    lines := map[];
    var seen := plans.Keys + facts.Keys + scheduled.Keys;
    var left := seen;
    while left != {}
      invariant left <= seen
      invariant forall k: Key :: k in lines ==> k in seen && k !in left && OnLadder(db, k.0)
      invariant forall k: Key | k in seen && k !in left && OnLadder(db, k.0) :: k in lines
      invariant forall k | k in lines :: lines[k] == LineOf(plans, facts, scheduled, k)
      decreases |left|
    {
      var k :| k in left;
      left := left - {k};
      if OnLadder(db, k.0) {
        var line := MakeLine(plans, facts, scheduled, k);
        lines := lines[k := line];
      }
    }
  }

  // A dictionary that holds exactly the groups `keys` with the values f.
  predicate Holds(g: map<Key, int>, keys: set<Key>, f: Key -> int) {
    g.Keys == keys && forall k | k in keys :: g[k] == f(k)
  }

  lemma HeldSums(g: map<Key, int>, keys: set<Key>, f: Key -> int, part: set<Key>)
    requires Holds(g, keys, f) && part <= keys
    ensures SetSum(part, At(g)) == SetSum(part, f)
  {
    SetSumSame(part, At(g), f);
  }

  predicate Numbered(db: Db) {
    (forall i | i in db.actuals :: i < db.nextActual) && (forall i | i in db.planned :: i < db.nextPlanned)
  }

  lemma WfNumbered(db: Db)
    requires Wf(db)
    ensures Numbered(db)
  {
    ActualIds(db);
  }

  method GroupFacts(db: Db, period: nat) returns (g: map<Key, int>)
    requires Numbered(db)
    ensures Holds(g, ActualKeys(db.actuals, period), ActualAt(db, period))
    ensures forall k :: At(g)(k) == ActualAt(db, period)(k)
  {
    var selected := (i: nat) => InReport(db.actuals, period, i);
    g := GroupBy(selected, ActualKey(db.actuals), ActualSize(db.actuals, period), db.nextActual);
    forall k | k in ActualKeys(db.actuals, period)
      ensures k in g
    {
      var i :| i in db.actuals && InReport(db.actuals, period, i) && (db.actuals[i].category, db.actuals[i].kind) == k;
      assert selected(i) && ActualKey(db.actuals)(i) == k;
    }
    assert forall k | k in g :: At(g)(k) == g[k];
  }

  method GroupScheduled(db: Db, period: nat) returns (g: map<Key, int>)
    requires Numbered(db)
    ensures Holds(g, ScheduledKeys(db.planned, period), ScheduledAt(db, period))
    ensures forall k :: At(g)(k) == ScheduledAt(db, period)(k)
  {
    var selected := (i: nat) => Scheduled(db.planned, period, i);
    g := GroupBy(selected, ScheduledKey(db.planned), ScheduledSize(db.planned, period), db.nextPlanned);
    forall k | k in ScheduledKeys(db.planned, period)
      ensures k in g
    {
      var i :| i in db.planned && Scheduled(db.planned, period, i) && (db.planned[i].category, db.planned[i].kind) == k;
      assert selected(i) && ScheduledKey(db.planned)(i) == k;
    }
    assert forall k | k in g :: At(g)(k) == g[k];
  }

  lemma LinesAreListed(db: Db, period: nat, plans: map<Key, int>, facts: map<Key, int>, scheduled: map<Key, int>,
      lines: map<Key, Line>)
    requires period in db.periods
    requires Holds(plans, PlanKeys(db), PlanAt(db, period))
        && Holds(facts, ActualKeys(db.actuals, period), ActualAt(db, period))
    requires Holds(scheduled, ScheduledKeys(db.planned, period), ScheduledAt(db, period))
    requires forall k :: At(plans)(k) == PlanAt(db, period)(k) && At(facts)(k) == ActualAt(db, period)(k)
    requires forall k :: At(scheduled)(k) == ScheduledAt(db, period)(k)
    requires forall k: Key :: k in lines <==> k in plans.Keys + facts.Keys + scheduled.Keys && OnLadder(db, k.0)
    requires forall k | k in lines :: lines[k] == LineOf(plans, facts, scheduled, k)
    ensures lines == ReportOf(db, period).lines
  {
    hide PlanAt, ActualAt, ScheduledAt, PlanKeys, ActualKeys, ScheduledKeys, OnLadder, At;
    assert forall k | k in lines :: lines[k] == LineAt(db, period, k);
  }

  // The total of one kind, with or without the system categories.
  method Total(db: Db, period: nat, facts: map<Key, int>, kind: Kind, ladder: bool) returns (total: int)
    requires Holds(facts, ActualKeys(db.actuals, period), ActualAt(db, period))
    ensures total == SetSum(if ladder then OnLadderOf(db, period, kind)
        else OfKind(ActualKeys(db.actuals, period), kind),
                            ActualAt(db, period))
  {
    hide ActualKeys, ActualAt, ActiveSystem, At;
    var keys := set k | k in facts && k.1 == kind && !(ladder && ActiveSystem(db, k.0));
    total := SumValues(facts, keys);
    HeldSums(facts, ActualKeys(db.actuals, period), ActualAt(db, period), keys);
    assert keys == if ladder then OnLadderOf(db, period, kind) else OfKind(ActualKeys(db.actuals, period), kind);
  }

  method CollectPlans(db: Db, period: nat) returns (plans: map<Key, int>)
    ensures Holds(plans, PlanKeys(db), PlanAt(db, period))
    ensures forall k :: At(plans)(k) == PlanAt(db, period)(k)
  {
    plans := map k | k in PlanKeys(db) :: PlanAt(db, period)(k);
  }

  lemma ReportIs(db: Db, period: nat, r: Report)
    requires period in db.periods && r.lines == ReportOf(db, period).lines && r.plannedIncome == IncomeOf(db)
    requires r.plannedExpense == SetSum(PlanKeys(db), PlanAt(db, period))
    requires r.actualExpense == SetSum(OnLadderOf(db, period, Expense), ActualAt(db, period))
    requires r.actualIncome == SetSum(OnLadderOf(db, period, Income), ActualAt(db, period))
    requires r.balanceNow == db.periods[period].starting + SetSum(OfKind(ActualKeys(db.actuals, period), Income),
        ActualAt(db, period))
                             - SetSum(OfKind(ActualKeys(db.actuals, period), Expense), ActualAt(db, period))
    requires r.deltaTotal == (r.plannedExpense - r.actualExpense) + (r.actualIncome - r.plannedIncome)
    ensures r == ReportOf(db, period)
  {
    hide PlanKeys, PlanAt, OnLadderOf, ActualAt, OfKind, ActualKeys, ShownKeys, LineAt, SetSum;
  }

  method PlanTotal(db: Db, period: nat, plans: map<Key, int>) returns (total: int)
    requires Holds(plans, PlanKeys(db), PlanAt(db, period))
    ensures total == SetSum(PlanKeys(db), PlanAt(db, period))
  {
    total := SumValues(plans, plans.Keys);
    HeldSums(plans, PlanKeys(db), PlanAt(db, period), PlanKeys(db));
  }

  // The report the code builds is the specified one.
  method ComputeBalance(db: Db, period: nat) returns (r: Result<Report, Error>)
    requires Wf(db)
    ensures period !in db.periods ==> r == Err(PeriodNotFound)
    ensures period in db.periods ==> r == Ok(ReportOf(db, period))
  {
    if period !in db.periods {
      return Err(PeriodNotFound);
    }
    hide *;
    WfNumbered(db);
    var facts := GroupFacts(db, period);
    var scheduled := GroupScheduled(db, period);
    var plans := CollectPlans(db, period);
    var lines := ListLines(db, plans, facts, scheduled);
    LinesAreListed(db, period, plans, facts, scheduled, lines);
    var planExp := PlanTotal(db, period, plans);
    var actExp := Total(db, period, facts, Expense, true);
    var actInc := Total(db, period, facts, Income, true);
    var allExp := Total(db, period, facts, Expense, false);
    var allInc := Total(db, period, facts, Income, false);
    var planInc := IncomeOf(db);
    var report := Report(planExp, actExp, planInc, actInc, db.periods[period].starting + allInc - allExp,
                         (planExp - actExp) + (actInc - planInc), lines);
    ReportIs(db, period, report);
    r := Ok(report);
  }
}
