// One user's rows, the constraints PostgreSQL puts on them, and the queries
// the services share (app/db/models.py).
module Database {
  import opened Wrappers
  import opened Calendar
  import opened Sums

  // ---- Rows ----

  datatype Kind = Expense | Income | Roundup | Deposit

  const ADJUSTMENT_NAME := "Корректировка"

  type CategoryKind = k: Kind | k.Expense? || k.Income? witness Expense

  // Every category has a code. The system categories are told apart by it, and
  // onboarding finds its own categories again by theirs.
  datatype Code = Savings | Adjustment | Ordinary(slug: string)

  datatype Source = Template | Manual | SubscriptionAuto

  datatype Account = Account(balance: int, primary: bool)

  datatype Category = Category(name: string, kind: CategoryKind, archived: bool, code: Code, plan: int)

  datatype Period = Period(start: Date, end: Date, starting: int, active: bool)

  datatype Actual = Actual(
    period: nat, kind: Kind, amount: int, category: nat, date: Date,
    account: Option<nat>, parent: Option<nat>)

  datatype Planned = Planned(
    period: nat, kind: Kind, amount: int, category: nat, date: Option<Date>, source: Source,
    sub: Option<nat>, chargeDate: Option<Date>, posted: Option<nat>)

  datatype Subscription = Subscription(
    amount: int, interval: int, nextCharge: Date, category: nat, active: bool,
    dayOfMonth: Option<int>, account: Option<nat>, posted: Option<nat>)

  datatype TemplateLine = TemplateLine(category: nat, amount: int, dayOfPeriod: Option<int>, kind: CategoryKind)

  // CHECK ck_app_user_cycle_start_day.
  type CycleDay = c: int | 1 <= c <= 28 witness 5

  datatype Db = Db(
    accounts: map<nat, Account>, nextAccount: nat,
    categories: map<nat, Category>, nextCategory: nat,
    periods: map<nat, Period>, nextPeriod: nat,
    actuals: map<nat, Actual>, nextActual: nat,
    planned: map<nat, Planned>, nextPlanned: nat,
    subs: map<nat, Subscription>,
    limits: map<(nat, nat), int>,  // (period, category) -> limit
    templateItems: map<nat, int>,  // category -> limit
    templateLines: seq<TemplateLine>,
    cycleDay: CycleDay,
    income: Option<int>)

  // ---- Domain exceptions ----

  datatype Error =
    | CategoryNotFound | InvalidCategory | KindMismatch | FutureDate
    | ActualNotFound | PeriodNotFound | AccountNotFound
    | PlannedNotFound | PlannedReadOnly | PlannedAlreadyPosted | PlannedNotPosted
    | SubscriptionNotFound | SubscriptionInactive | SubscriptionAlreadyPosted
    | SubscriptionNotPosted | SubscriptionWithoutAccount | AlreadyCharged
    | OccurrenceNotFound | OccurrenceAlreadyPaid | PostponeOutOfPeriod
    | AccountHasTxns | SolePrimary
    | CategoryNotInTenant | IncomeLimitForbidden | PlanOverflow
    | ConsentRequired | BadIncome | BadPlans | PlanExceedsIncome | BadAccounts | OnboardingConflict
    | IntegrityError  // raised by the database itself

  // ---- Money ----

  function Abs(x: int): (r: int)
    ensures r >= 0
  {
    if x < 0 then -x else x
  }

  // The one place that gives a stored amount its sign: income comes in, every
  // other kind goes out, whatever sign the row was stored with.
  function SignedDelta(kind: Kind, amount: int): int {
    if kind.Income? then Abs(amount) else -Abs(amount)
  }

  const BALANCE_LIMIT := 100_000_000_000

  // CHECK ck_account_balance_range.
  predicate InRange(balance: int) { -BALANCE_LIMIT <= balance <= BALANCE_LIMIT }

  // ---- The ledger as a fold over its rows ----

  function Share(m: map<nat, Actual>, account: nat): nat -> int {
    (i: nat) => if i in m && m[i].account == Some(account) then SignedDelta(m[i].kind, m[i].amount) else 0
  }

  // What the live rows say happened to an account.
  function Fold(db: Db, account: nat): int { Sum(Share(db.actuals, account), db.nextActual) }

  // The balance the account would have without any of its live rows.
  function Opening(db: Db, account: nat): int
    requires account in db.accounts
  {
    db.accounts[account].balance - Fold(db, account)
  }

  // Restrict weights to a set of ids.
  function Only(ids: set<nat>, w: nat -> int): nat -> int { (i: nat) => if i in ids then w(i) else 0 }

  // ---- Shared queries ----

  function ActiveIds(ps: map<nat, Period>): set<nat> { set i | i in ps && ps[i].active }

  function CoveringIds(ps: map<nat, Period>, d: Date): set<nat> {
    set i | i in ps && Within(ps[i].start, d, ps[i].end)
  }

  // ORDER BY period_start DESC LIMIT 1 over the selected ids below n.
  function LatestOf(ps: map<nat, Period>, ids: set<nat>, n: nat): (r: Option<nat>)
    requires ids <= ps.Keys
    ensures r.None? <==> forall i | i in ids :: i >= n
    ensures r.Some? ==> r.value in ids && r.value < n
    ensures r.Some? ==> forall i | i in ids && i < n :: AtMost(ps[i].start, ps[r.value].start)
  {
    if n == 0 then None
    else
      var best := LatestOf(ps, ids, n - 1);
      if n - 1 in ids && (best.None? || Before(ps[best.value].start, ps[n - 1].start)) then Some(n - 1) else best
  }

  // get_current_active_period.
  function ActivePeriod(db: Db): (r: Option<nat>)
    ensures r.Some? ==> r.value in db.periods && db.periods[r.value].active
  {
    LatestOf(db.periods, ActiveIds(db.periods), db.nextPeriod)
  }

  function PeriodCovering(db: Db, d: Date): (r: Option<nat>)
    ensures r.Some? ==> r.value in db.periods && Within(db.periods[r.value].start, d, db.periods[r.value].end)
  {
    LatestOf(db.periods, CoveringIds(db.periods, d), db.nextPeriod)
  }

  function FirstPrimary(accounts: map<nat, Account>, n: nat): (r: Option<nat>)
    ensures r.None? <==> forall a | a in accounts && a < n :: !accounts[a].primary
    ensures r.Some? ==> r.value in accounts && r.value < n && accounts[r.value].primary
  {
    if n == 0 then None
    else
      var first := FirstPrimary(accounts, n - 1);
      if first.Some? then first
      else if n - 1 in accounts && accounts[n - 1].primary then Some(n - 1)
      else None
  }

  // get_primary_account.
  function PrimaryAccount(db: Db): Option<nat> { FirstPrimary(db.accounts, db.nextAccount) }

  // A category by its code; the queries name no order, so the oldest row
  // stands for whichever comes back.
  function FirstWithCode(m: map<nat, Category>, code: Code, n: nat): (r: Option<nat>)
    ensures r.Some? ==> r.value in m && r.value < n && m[r.value].code == code
    ensures r.Some? ==> forall c | c in m && c < r.value :: m[c].code != code
    ensures r.None? ==> forall c | c in m && c < n :: m[c].code != code
  {
    if n == 0 then None
    else
      var first := FirstWithCode(m, code, n - 1);
      if first.Some? then first
      else if n - 1 in m && m[n - 1].code == code then Some(n - 1)
      else None
  }

  // ---- Rules of the schema, each over just the tables and key sets it reads ----

  predicate LinkLive(posted: Option<nat>, actuals: set<nat>) { posted.Some? ==> posted.value in actuals }

  predicate AccountsOk(m: map<nat, Account>, n: nat) {
    && (forall a | a in m :: a < n && InRange(m[a].balance))
    // ix_account_user_primary_one
    && (forall a, b | a in m && b in m && m[a].primary && m[b].primary :: a == b)
  }

  // uq_category_user_id_name and uq_category_user_code hold among the rows that
  // are not archived: no other one of them has this row's name or code.
  predicate LiveClash(m: map<nat, Category>, id: nat, row: Category) {
    exists c | c in m :: c != id && !m[c].archived && (m[c].name == row.name || m[c].code == row.code)
  }

  predicate CategoriesOk(m: map<nat, Category>, n: nat) {
    && (forall c | c in m :: c < n)
    && (forall c | c in m && !m[c].archived :: !LiveClash(m, c, m[c]))
  }

  predicate PeriodsOk(m: map<nat, Period>, n: nat) {
    && (forall p | p in m :: p < n)
    // uq_budget_period_one_active
    && (forall p, q | p in m && q in m && m[p].active && m[q].active :: p == q)
    // uq_budget_period_user_id_period_start
    && (forall p, q | p in m && q in m && m[p].start == m[q].start :: p == q)
  }

  // A parent is an older row.
  predicate ActualRowOk(m: map<nat, Actual>, i: nat, n: nat, periods: set<nat>, accounts: set<nat>)
    requires i in m
  {
    && i < n
    && m[i].period in periods
    && (m[i].account.Some? ==> m[i].account.value in accounts)
    && (m[i].parent.Some? ==> m[i].parent.value in m && m[i].parent.value < i)
  }

  predicate ActualsOk(m: map<nat, Actual>, n: nat, periods: set<nat>, accounts: set<nat>) {
    forall i | i in m :: ActualRowOk(m, i, n, periods, accounts)
  }

  predicate PlannedRowOk(row: Planned, periods: set<nat>, subs: set<nat>, actuals: set<nat>) {
    row.period in periods && (row.sub.Some? ==> row.sub.value in subs) && LinkLive(row.posted, actuals)
  }

  predicate PlannedRowsOk(m: map<nat, Planned>, n: nat, periods: set<nat>, subs: set<nat>, actuals: set<nat>) {
    forall i | i in m :: i < n && PlannedRowOk(m[i], periods, subs, actuals)
  }

  // uq_planned_posted_txn_id.
  predicate PlannedLinksUnique(m: map<nat, Planned>) {
    forall i, j | i in m && j in m && m[i].posted.Some? && m[i].posted == m[j].posted :: i == j
  }

  predicate SameCharge(a: Planned, b: Planned) {
    a.sub.Some? && a.chargeDate.Some? && a.sub == b.sub && a.chargeDate == b.chargeDate
  }

  // uq_planned_sub_charge_date.
  predicate ChargeDatesUnique(m: map<nat, Planned>) {
    forall i, j | i in m && j in m && SameCharge(m[i], m[j]) :: i == j
  }

  predicate SubRowOk(row: Subscription, categories: set<nat>, accounts: set<nat>, actuals: set<nat>) {
    && row.interval >= 1  // ck_subscription_interval_months
    && row.category in categories
    && (row.account.Some? ==> row.account.value in accounts)
    && LinkLive(row.posted, actuals)
  }

  predicate SubRowsOk(m: map<nat, Subscription>, categories: set<nat>, accounts: set<nat>, actuals: set<nat>) {
    forall s | s in m :: SubRowOk(m[s], categories, accounts, actuals)
  }

  // uq_subscription_posted_txn_id.
  predicate SubLinksUnique(m: map<nat, Subscription>) {
    forall s, t | s in m && t in m && m[s].posted.Some? && m[s].posted == m[t].posted :: s == t
  }

  // Every constraint of the schema that the services rely on.
  predicate Wf(db: Db) {
    && AccountsOk(db.accounts, db.nextAccount)
    && PeriodsOk(db.periods, db.nextPeriod)
    && ActualsOk(db.actuals, db.nextActual, db.periods.Keys, db.accounts.Keys)
    && PlannedRowsOk(db.planned, db.nextPlanned, db.periods.Keys, db.subs.Keys, db.actuals.Keys)
    && PlannedLinksUnique(db.planned)
    && ChargeDatesUnique(db.planned)
    && SubRowsOk(db.subs, db.categories.Keys, db.accounts.Keys, db.actuals.Keys)
    && SubLinksUnique(db.subs)
    && CategoriesOk(db.categories, db.nextCategory)
  }

  // Parent links are at most one deep.
  predicate Flat(m: map<nat, Actual>) {
    forall i | i in m && m[i].parent.Some? && m[i].parent.value in m :: m[m[i].parent.value].parent.None?
  }
}
