// The displayed balance against the cached account balances.
module BalanceTheorems {
  import opened Wrappers
  import opened Calendar
  import opened PeriodEngine
  import opened Sums
  import opened Database
  import opened Ledger
  import opened LedgerTheorems
  import opened PostingTheorems
  import opened Balances

  // ---- The displayed balance when a row comes ----

  lemma PeriodSumInsert(m: map<nat, Actual>, n: nat, row: Actual, period: nat)
    requires forall i | i in m :: i < n
    ensures Sum(PeriodShare(m[n := row], period), n + 1) == Sum(PeriodShare(m, period), n)
            + (if row.period == period && Shown(row.kind) then SignedDelta(row.kind, row.amount) else 0)
  {
    hide SignedDelta, Shown;
    SumSame(PeriodShare(m, period), PeriodShare(m[n := row], period), n);
  }

  lemma BalanceNowInsert(before: Db, made: Db, tx: NewActual, txn: nat, period: nat)
    requires Wf(before) && Created(before, made, tx, txn) && period in before.periods
    ensures period in made.periods
    ensures BalanceNow(made, period) == BalanceNow(before, period)
            + (if made.actuals[txn].period == period && Shown(tx.kind) then SignedDelta(tx.kind, tx.amount) else 0)
  {
    ActualIds(before);
    hide Wf, SignedDelta, Shown, PeriodShare;
    PeriodSumInsert(before.actuals, before.nextActual, made.actuals[txn], period);
    assert made.periods[period] == before.periods[period];
  }

  // Which period a transaction of a given date lands in.
  lemma CreatedInResolvedPeriod(db: Db, tx: NewActual, today: Date)
    requires CreateActual(db, tx, today).Ok?
    ensures var (made, txn) := CreateActual(db, tx, today).value;
            txn in made.actuals && ResolvePeriod(db, tx.date, today).1 == Some(made.actuals[txn].period)
  {
    hide CheckNewActual, ResolvePeriod, SignedDelta, InRange;
  }

  // With an active period, a date of today either finds a period that covers
  // it or cannot be resolved: a new period for today would be active as well.
  lemma TodayResolves(db: Db, today: Date)
    requires Wf(db) && ActivePeriod(db).Some?
    ensures ResolvePeriod(db, today, today) == (db, PeriodCovering(db, today))
  {
    PeriodForPartitions(today, today, db.cycleDay);
    hide PeriodFor, PeriodCovering, Within;
    var row := NewPeriod(today, db.cycleDay, 0, today);
    assert row.active;
    assert PeriodClashes(db, row) by {
      assert ActivePeriod(db).value in db.periods;
    }
  }

  lemma ActivePeriodKept(before: Db, after: Db)
    requires Wf(before) && Wf(after) && ActivePeriod(before).Some?
    requires forall p | p in before.periods :: p in after.periods && after.periods[p] == before.periods[p]
    ensures ActivePeriod(after) == ActivePeriod(before)
  {
    var p := ActivePeriod(before).value;
    assert p in ActiveIds(after.periods) && p < after.nextPeriod;
    hide LatestOf;
  }

  // ---- Reconciliation ----

  lemma ReconcilingDelta(db: Db, delta: int, category: nat, today: Date)
    requires delta != 0
    ensures var tx := ReconcilingTx(db, delta, category, today);
            SignedDelta(tx.kind, tx.amount) == delta && Shown(tx.kind) && tx.date == today
            && tx.account == PrimaryAccount(db) && tx.parent.None?
  {
  }

  // Everything a reconciliation that books a row does.
  predicate Booked(db: Db, after: Db, tx: NewActual, txn: nat, delta: int, today: Date) {
    && Created(db, after, tx, txn) && Wf(after)
    && SignedDelta(tx.kind, tx.amount) == delta && Shown(tx.kind)
    && tx.account == PrimaryAccount(db) && tx.parent.None?
    && PeriodCovering(db, today) == Some(after.actuals[txn].period)
  }

  lemma CreateForTodayBooks(db: Db, delta: int, category: nat, today: Date)
    requires Wf(db) && ActivePeriod(db).Some? && delta != 0
    ensures var tx := ReconcilingTx(db, delta, category, today);
            var r := CreateActual(db, tx, today);
            r.Ok? ==> Booked(db, r.value.0, tx, r.value.1, delta, today)
  {
    var tx := ReconcilingTx(db, delta, category, today);
    ReconcilingDelta(db, delta, category, today);
    hide Wf, CreateActual, ActivePeriod, ResolvePeriod, PeriodCovering, ReconcilingTx, Shown, SignedDelta,
        PrimaryAccount;
    CreateActualEffect(db, tx, today);
    if CreateActual(db, tx, today).Ok? {
      CreatedInResolvedPeriod(db, tx, today);
      TodayResolves(db, today);
    }
  }

  lemma ReconcileBooks(db: Db, target: int, today: Date) returns (tx: NewActual)
    requires Wf(db) && Reconcile(db, target, today).Ok? && Reconcile(db, target, today).value.1.Some?
    ensures ActivePeriod(db).Some? && Shortfall(db, target) != 0
    ensures var (after, txn) := Reconcile(db, target, today).value;
            Booked(db, after, tx, txn.value, Shortfall(db, target), today)
  {
    var adjustment := FirstWithCode(db.categories, Adjustment, db.nextCategory).value;
    tx := ReconcilingTx(db, Shortfall(db, target), adjustment, today);
    hide Wf, CreateActual, Booked, Shortfall, FirstWithCode, ActivePeriod, ReconcilingTx;
    CreateForTodayBooks(db, Shortfall(db, target), adjustment, today);
  }

  lemma BookedMovesDisplay(db: Db, after: Db, tx: NewActual, txn: nat, delta: int, today: Date)
    requires Wf(db) && Booked(db, after, tx, txn, delta, today) && ActivePeriod(db).Some?
    ensures ActivePeriod(after) == ActivePeriod(db)
    ensures BalanceNow(after, ActivePeriod(db).value) == BalanceNow(db, ActivePeriod(db).value)
            + (if PeriodCovering(db, today) == ActivePeriod(db) then delta else 0)
  {
    BalanceNowInsert(db, after, tx, txn, ActivePeriod(db).value);
    ActivePeriodKept(db, after);
    hide Wf, BalanceNow, PeriodCovering, ActivePeriod, PrimaryAccount, SignedDelta, Shown;
  }

  // The displayed balance hits the target exactly when it was already there or
  // the active period is the one that covers today.
  lemma ReconcileHitsTargetExactly(db: Db, target: int, today: Date)
    requires Wf(db) && Reconcile(db, target, today).Ok?
    ensures ActivePeriod(db).Some?
    ensures var after := Reconcile(db, target, today).value.0;
            ActivePeriod(after) == ActivePeriod(db)
            && (Shortfall(after, target) == 0
                <==> Shortfall(db, target) == 0 || PeriodCovering(db, today) == ActivePeriod(db))
  {
    var (after, txn) := Reconcile(db, target, today).value;
    if txn.Some? {
      var tx := ReconcileBooks(db, target, today);
      BookedMovesDisplay(db, after, tx, txn.value, Shortfall(db, target), today);
    }
    hide Wf, CreateActual, BalanceNow, PeriodCovering, ReconcilingTx, ActivePeriod;
  }

  // The primary account moves by the same difference; with that, repeating is
  // a no-op, and deleting the returned row undoes the reconciliation.
  lemma ReconcileMovesPrimaryAlike(db: Db, target: int, today: Date)
    requires Wf(db) && Reconcile(db, target, today).Ok?
    ensures ActivePeriod(db).Some?
    ensures PrimaryMoved(db, Reconcile(db, target, today).value.0, Shortfall(db, target))
  {
    var (after, txn) := Reconcile(db, target, today).value;
    if txn.Some? {
      var tx := ReconcileBooks(db, target, today);
      CreatedMovesPrimary(db, after, tx, txn.value, Shortfall(db, target));
      hide PrimaryMoved;
    }
    hide Wf, CreateActual, Created, Shortfall, ActivePeriod, PrimaryAccount, SignedDelta;
  }

  lemma ReconcileTwiceIsOnce(db: Db, target: int, today: Date)
    requires Wf(db) && Reconcile(db, target, today).Ok? && PeriodCovering(db, today) == ActivePeriod(db)
    ensures var after := Reconcile(db, target, today).value.0;
            Reconcile(after, target, today) == Ok((after, None))
  {
    ReconcileHitsTargetExactly(db, target, today);
    hide Wf, CreateActual, Shortfall, PeriodCovering, ReconcilingTx, ActivePeriod;
  }

  lemma DeleteUndoesReconcile(db: Db, target: int, today: Date)
    requires Wf(db) && Reconcile(db, target, today).Ok? && Reconcile(db, target, today).value.1.Some?
    ensures var (after, txn) := Reconcile(db, target, today).value;
            var back := DeleteActual(after, txn.value);
            back.Ok? && back.value.accounts == db.accounts && back.value.actuals == db.actuals
            && back.value.planned == db.planned && back.value.subs == db.subs
  {
    var (after, txn) := Reconcile(db, target, today).value;
    var tx := ReconcileBooks(db, target, today);
    DeleteUndoesCreate(db, after, tx, txn.value, after);
    UnlinkFresh(db, after, tx, txn.value);
    hide Wf, Reconcile, DeleteActual, UnlinkPlanned, UnlinkSubs, SignedDelta, Shown, PrimaryAccount, PeriodCovering;
  }

  lemma ReconcileSound(db: Db, target: int, today: Date)
    requires Wf(db) && Flat(db.actuals)
    ensures var r := Reconcile(db, target, today); r.Ok? ==> Sound(db, r.value.0)
  {
    hide Wf, Flat, CreateActual, Created, KeepsOpenings, ReconcilingTx, ActivePeriod;
    UntouchedMoney(db, db);
    if Reconcile(db, target, today).Ok? && Reconcile(db, target, today).value.1.Some? {
      var tx := ReconcilingTx(db, Shortfall(db, target),
          FirstWithCode(db.categories, Adjustment, db.nextCategory).value, today);
      assert tx.parent.None? by {
        ReconcilingDelta(db, Shortfall(db, target), FirstWithCode(db.categories, Adjustment, db.nextCategory).value,
            today);
      }
      CreateActualSound(db, tx, today);
    }
  }
}
