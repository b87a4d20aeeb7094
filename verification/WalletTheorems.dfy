// The wallet total against the displayed balance: what separates the two, and
// what migration 0038 repairs (alembic/versions/0038_recompute_account_balances.py).
module WalletTheorems {
  import opened Wrappers
  import opened Sums
  import opened Database
  import opened PostingTheorems
  import opened Balances

  // ---- The wallet as a fold over rows ----

  function OpeningOf(db: Db): nat -> int { (a: nat) => if a in db.accounts then Opening(db, a) else 0 }

  // The part of the wallet that no live row explains.
  function OpeningsTotal(db: Db): int { Sum(OpeningOf(db), db.nextAccount) }

  // Rows that sit on some account.
  function Booked(m: map<nat, Actual>): nat -> int {
    (i: nat) => if i in m && m[i].account.Some? then SignedDelta(m[i].kind, m[i].amount) else 0
  }

  // Account rows the displayed balance of the period does not show.
  function Outside(m: map<nat, Actual>, period: nat): nat -> int {
    (i: nat) => if i in m && m[i].account.Some? && (m[i].period != period || !Shown(m[i].kind))
                then SignedDelta(m[i].kind, m[i].amount) else 0
  }

  // Rows the displayed balance shows although they sit on no account.
  function Unaccounted(m: map<nat, Actual>, period: nat): nat -> int {
    (i: nat) => if i in m && m[i].account.None? && m[i].period == period && Shown(m[i].kind)
                then SignedDelta(m[i].kind, m[i].amount) else 0
  }

  // Account a's part in row i.
  function Cell(db: Db): (nat, nat) -> int {
    (a: nat, i: nat) => if a in db.accounts && i in db.actuals && db.actuals[i].account == Some(a)
                        then SignedDelta(db.actuals[i].kind, db.actuals[i].amount) else 0
  }

  function FoldOf(db: Db): nat -> int { (a: nat) => if a in db.accounts then Fold(db, a) else 0 }

  lemma FoldIsRowSum(db: Db, a: nat)
    ensures FoldOf(db)(a) == Sum(Row(Cell(db), a), db.nextActual)
  {
    if a in db.accounts {
      SumSame(Share(db.actuals, a), Row(Cell(db), a), db.nextActual);
    } else {
      SumZero(Row(Cell(db), a), db.nextActual);
    }
  }

  lemma FoldsAreRowSums(db: Db)
    ensures Sum(FoldOf(db), db.nextAccount) == Sum(RowSums(Cell(db), db.nextActual), db.nextAccount)
  {
    hide Fold, Share;
    forall a: nat | a < db.nextAccount
      ensures FoldOf(db)(a) == RowSums(Cell(db), db.nextActual)(a)
    {
      FoldIsRowSum(db, a);
    }
    SumSame(FoldOf(db), RowSums(Cell(db), db.nextActual), db.nextAccount);
  }

  lemma CellValue(db: Db, i: nat, a: nat)
    ensures Column(Cell(db), i)(a)
            == if a in db.accounts && i in db.actuals && db.actuals[i].account == Some(a)
               then SignedDelta(db.actuals[i].kind, db.actuals[i].amount) else 0
  {
    var cell := Cell(db);
    assert Column(cell, i)(a) == cell(a, i);
  }

  // A row on an account is in exactly one column cell.
  lemma RowIsOneCell(db: Db, i: nat)
    requires Wf(db)
    ensures Sum(Column(Cell(db), i), db.nextAccount) == Booked(db.actuals)(i)
  {
    if i in db.actuals && db.actuals[i].account.Some? {
      assert ActualRowOk(db.actuals, i, db.nextActual, db.periods.Keys, db.accounts.Keys);
      assert db.actuals[i].account.value < db.nextAccount;
    }
    hide Wf, Cell, Column, SignedDelta;
    forall a: nat
      ensures Column(Cell(db), i)(a)
              == if a in db.accounts && i in db.actuals && db.actuals[i].account == Some(a)
                 then SignedDelta(db.actuals[i].kind, db.actuals[i].amount) else 0
    {
      CellValue(db, i, a);
    }
    if i in db.actuals && db.actuals[i].account.Some? {
      SumIsOne(Column(Cell(db), i), db.nextAccount, db.actuals[i].account.value);
    } else {
      SumZero(Column(Cell(db), i), db.nextAccount);
    }
  }

  // The folds of all accounts together are one fold over the account rows.
  lemma FoldsAddUp(db: Db)
    requires Wf(db)
    ensures Sum(FoldOf(db), db.nextAccount) == Sum(Booked(db.actuals), db.nextActual)
  {
    FoldsAreRowSums(db);
    SumSwaps(Cell(db), db.nextAccount, db.nextActual);
    hide Wf, Cell, Booked, FoldOf;
    forall i: nat | i < db.nextActual
      ensures ColumnSums(Cell(db), db.nextAccount)(i) == Booked(db.actuals)(i)
    {
      RowIsOneCell(db, i);
    }
    SumSame(ColumnSums(Cell(db), db.nextAccount), Booked(db.actuals), db.nextActual);
  }

  lemma WalletSplits(db: Db)
    requires Wf(db)
    ensures Wallet(db) == OpeningsTotal(db) + Sum(Booked(db.actuals), db.nextActual)
  {
    FoldsAddUp(db);
    hide Wf, Booked, Fold;
    SumAdds(OpeningOf(db), FoldOf(db), BalanceOf(db.accounts), db.nextAccount);
  }

  // Wallet minus displayed balance: the openings no period started from, plus
  // the account rows the period does not show, minus the rows it shows that
  // sit on no account.
  lemma GapExplained(db: Db, period: nat)
    requires Wf(db) && period in db.periods
    ensures Wallet(db) - BalanceNow(db, period)
            == OpeningsTotal(db) - db.periods[period].starting
               + Sum(Outside(db.actuals, period), db.nextActual)
               - Sum(Unaccounted(db.actuals, period), db.nextActual)
  {
    WalletSplits(db);
    var m, n := db.actuals, db.nextActual;
    hide Wf, OpeningsTotal, Wallet, SignedDelta;
    var both := (i: nat) => Booked(m)(i) + Unaccounted(m, period)(i);
    SumAdds(Booked(m), Unaccounted(m, period), both, n);
    SumAdds(PeriodShare(m, period), Outside(m, period), both, n);
  }

  // ---- Migration 0038 ----

  lemma RepairTargetReadsRows(db: Db, accounts: map<nat, Account>)
    ensures RepairTarget(db.(accounts := accounts)) == RepairTarget(db)
  {
    hide PeriodShare, ActiveIds, LatestOf;
  }

  lemma WalletOfRepaired(db: Db, primary: nat, balance: int)
    requires primary in db.accounts && primary < db.nextAccount
    ensures Wallet(db.(accounts := db.accounts[primary := db.accounts[primary].(balance := balance)]))
            == Wallet(db) - db.accounts[primary].balance + balance
  {
    SumChanges(BalanceOf(db.accounts), BalanceOf(db.accounts[primary := db.accounts[primary].(balance := balance)]),
               db.nextAccount, primary);
  }

  lemma SamePrimary(db: Db, primary: nat, balance: int)
    requires primary in db.accounts
    ensures PrimaryAccount(db.(accounts := db.accounts[primary := db.accounts[primary].(balance := balance)]))
            == PrimaryAccount(db)
  {
    SameFlagsSamePrimary(db.accounts, db.accounts[primary := db.accounts[primary].(balance := balance)],
        db.nextAccount);
  }

  // After the repair the wallet shows the displayed balance of the active
  // period (or its fallbacks), only the primary balance changed, and running
  // the repair again changes nothing.
  lemma RepairClosesTheGap(db: Db)
    requires Wf(db) && PrimaryAccount(db).Some? && Repair(db).Ok?
    ensures var after := Repair(db).value;
            var primary := PrimaryAccount(db).value;
            && Wallet(after) == RepairTarget(after) == RepairTarget(db)
            && ActivePeriod(after) == ActivePeriod(db)
            && (ActivePeriod(db).Some? ==> Wallet(after) == BalanceNow(after, ActivePeriod(db).value))
            && after == db.(accounts := db.accounts[primary :=
                              db.accounts[primary].(balance := after.accounts[primary].balance)])
            && Repair(after) == Ok(after)
  {
    var primary := PrimaryAccount(db).value;
    var row := db.accounts[primary];
    var balance := RepairTarget(db) - (Wallet(db) - row.balance);
    var after := Repair(db).value;
    WalletOfRepaired(db, primary, balance);
    RepairTargetReadsRows(db, after.accounts);
    SamePrimary(db, primary, balance);
    assert after.accounts[primary := after.accounts[primary].(balance := balance)] == after.accounts;
    hide Wf, Wallet, PrimaryAccount, PeriodShare, LatestOf, ActiveIds, InRange;
  }
}
