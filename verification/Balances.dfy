// The displayed balance of a period, reconciliation, and the repair of the
// cached balances (app/services/actual.py, alembic 0038).
module Balances {
  import opened Wrappers
  import opened Calendar
  import opened Sums
  import opened Database
  import opened Ledger

  // ---- The flat fold ----

  predicate Shown(kind: Kind) { kind.Expense? || kind.Income? }

  // Row i's signed part in the displayed balance of a period.
  function PeriodShare(m: map<nat, Actual>, period: nat): nat -> int {
    (i: nat) => if i in m && m[i].period == period && Shown(m[i].kind) then SignedDelta(m[i].kind, m[i].amount) else 0
  }

  // balance_now_cents, as one fold over the rows of the period.
  function BalanceNow(db: Db, period: nat): int
    requires period in db.periods
  {
    db.periods[period].starting + Sum(PeriodShare(db.actuals, period), db.nextActual)
  }

  // ---- Reconciliation ----

  function ReconcilingTx(db: Db, delta: int, category: nat, today: Date): NewActual {
    NewActual(if delta > 0 then Income else Expense, Abs(delta), category, today, PrimaryAccount(db), None)
  }

  // How far the displayed balance is from the target.
  function Shortfall(db: Db, target: int): int
    requires ActivePeriod(db).Some?
  {
    target - BalanceNow(db, ActivePeriod(db).value)
  }

  function Reconcile(db: Db, target: int, today: Date): Outcome<Option<nat>> {
    if ActivePeriod(db).None? then Err(PeriodNotFound)
    else
      var delta := Shortfall(db, target);
      var adjustment := FirstWithCode(db.categories, Adjustment, db.nextCategory);
      if delta == 0 then Ok((db, None))
      else if adjustment.None? then Err(InvalidCategory)
      else
        match CreateActual(db, ReconcilingTx(db, delta, adjustment.value, today), today)
        case Err(e) => Err(e)
        case Ok((made, txn)) => Ok((made, Some(txn)))
  }

  // ---- The wallet total and the 0038 repair ----

  function BalanceOf(m: map<nat, Account>): nat -> int { (a: nat) => if a in m then m[a].balance else 0 }

  // What the Mini App shows as the wallet: the sum over all accounts.
  function Wallet(db: Db): int { Sum(BalanceOf(db.accounts), db.nextAccount) }

  // F(user): the active period's balance, else the latest period's starting
  // balance, else nothing.
  function RepairTarget(db: Db): int {
    var active := ActivePeriod(db);
    var latest := LatestOf(db.periods, db.periods.Keys, db.nextPeriod);
    if active.Some? then BalanceNow(db, active.value)
    else if latest.Some? then db.periods[latest.value].starting
    else 0
  }

  // The UPDATE of migration 0038: primary := F - the other balances.
  function Repair(db: Db): Result<Db, Error> {
    var primary := PrimaryAccount(db);
    if primary.None? then Ok(db)
    else
      var row := db.accounts[primary.value];
      var balance := RepairTarget(db) - (Wallet(db) - row.balance);
      if !InRange(balance) then Err(IntegrityError)
      else Ok(db.(accounts := db.accounts[primary.value := row.(balance := balance)]))
  }
}
