// The plan-against-fact report of a period, computed through grouped maps
// (app/services/actual.py).
module Reports {
  import opened Sums
  import opened Database
  import opened Balances
  import opened Plans

  // What the report groups by: category and kind.
  type Key = (nat, Kind)

  datatype Line = Line(planned: int, unposted: int, actual: int, delta: int)

  // by_category is a list in the order of a hash set, so its order means nothing.
  datatype Report = Report(
    plannedExpense: int, actualExpense: int, plannedIncome: int, actualIncome: int,
    balanceNow: int, deltaTotal: int, lines: map<Key, Line>)

  // ---- The rows behind each map ----

  predicate InReport(m: map<nat, Actual>, period: nat, i: nat) {
    i in m && m[i].period == period && Shown(m[i].kind)
  }

  function ActualSize(m: map<nat, Actual>, period: nat): nat -> int {
    (i: nat) => if InReport(m, period, i) then Abs(m[i].amount) else 0
  }

  function ActualKey(m: map<nat, Actual>): nat -> Key {
    (i: nat) => if i in m then (m[i].category, m[i].kind) else (0, Deposit)
  }

  function ActualKeys(m: map<nat, Actual>, period: nat): set<Key> {
    set i | i in m && InReport(m, period, i) :: (m[i].category, m[i].kind)
  }

  // Scheduled: manual or template rows not yet posted.
  predicate Scheduled(m: map<nat, Planned>, period: nat, i: nat) {
    i in m && m[i].period == period && m[i].posted.None? && !m[i].source.SubscriptionAuto?
  }

  function ScheduledSize(m: map<nat, Planned>, period: nat): nat -> int {
    (i: nat) => if Scheduled(m, period, i) then Abs(m[i].amount) else 0
  }

  function ScheduledKey(m: map<nat, Planned>): nat -> Key {
    (i: nat) => if i in m then (m[i].category, m[i].kind) else (0, Deposit)
  }

  function ScheduledKeys(m: map<nat, Planned>, period: nat): set<Key> {
    set i | i in m && Scheduled(m, period, i) :: (m[i].category, m[i].kind)
  }

  // ---- Categories ----

  predicate Active(db: Db, category: nat) { category in db.categories && !db.categories[category].archived }

  predicate System(code: Code) { code.Savings? || code.Adjustment? }

  predicate ActiveSystem(db: Db, category: nat) { Active(db, category) && System(db.categories[category].code) }

  predicate OnLadder(db: Db, category: nat) { Active(db, category) && !System(db.categories[category].code) }

  function PlanKeys(db: Db): set<Key> {
    set c | c in db.categories && OnLadder(db, c) && db.categories[c].kind.Expense? :: (c, Expense)
  }

  // ---- Values by key; a key missing from its map counts as 0 ----

  function PlanAt(db: Db, period: nat): Key -> int {
    (k: Key) => if k in PlanKeys(db) && k.0 in db.categories then LimitOf(db, period, k.0) else 0
  }

  function ActualAt(db: Db, period: nat): Key -> int {
    GroupSums(ActualSize(db.actuals, period), ActualKey(db.actuals), db.nextActual)
  }

  function ScheduledAt(db: Db, period: nat): Key -> int {
    GroupSums(ScheduledSize(db.planned, period), ScheduledKey(db.planned), db.nextPlanned)
  }

  function SeenKeys(db: Db, period: nat): set<Key> {
    PlanKeys(db) + ActualKeys(db.actuals, period) + ScheduledKeys(db.planned, period)
  }

  // The lines of the list: neither archived nor system categories.
  function ShownKeys(db: Db, period: nat): set<Key> { set k | k in SeenKeys(db, period) && OnLadder(db, k.0) }

  // D-02: under budget is good for expenses, over target for income.
  function Signed(kind: Kind, plan: int, fact: int): int { if kind.Expense? then plan - fact else fact - plan }

  function LineAt(db: Db, period: nat, k: Key): Line {
    var plan, fact := PlanAt(db, period)(k), ActualAt(db, period)(k);
    Line(plan, ScheduledAt(db, period)(k), fact, Signed(k.1, plan, fact))
  }

  function OfKind(keys: set<Key>, kind: Kind): set<Key> { set k | k in keys && k.1 == kind }

  // System categories stay out of the ladder totals.
  function OnLadderOf(db: Db, period: nat, kind: Kind): set<Key> {
    set k | k in ActualKeys(db.actuals, period) && k.1 == kind && !ActiveSystem(db, k.0)
  }

  function IncomeOf(db: Db): int { if db.income.Some? then db.income.value else 0 }

  ghost function ReportOf(db: Db, period: nat): Report
    requires period in db.periods
  {
    var keys := ActualKeys(db.actuals, period);
    var planExp := SetSum(PlanKeys(db), PlanAt(db, period));
    var actExp := SetSum(OnLadderOf(db, period, Expense), ActualAt(db, period));
    var actInc := SetSum(OnLadderOf(db, period, Income), ActualAt(db, period));
    var allExp := SetSum(OfKind(keys, Expense), ActualAt(db, period));
    var allInc := SetSum(OfKind(keys, Income), ActualAt(db, period));
    Report(planExp, actExp, IncomeOf(db), actInc,
           db.periods[period].starting + allInc - allExp,
           (planExp - actExp) + (actInc - IncomeOf(db)),
           map k | k in ShownKeys(db, period) :: LineAt(db, period, k))
  }
}
