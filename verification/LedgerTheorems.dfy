// The cached balances against the fold over the live rows: what every ledger
// step keeps, what posting and unposting undo, and safety over whole runs.
module LedgerTheorems {
  import opened Wrappers
  import opened Calendar
  import opened Sums
  import opened Database
  import opened Ledger

  // Every account keeps the part of its balance that no live row explains.
  predicate KeepsOpenings(before: Db, after: Db) {
    && after.accounts.Keys == before.accounts.Keys
    && forall a | a in before.accounts :: Opening(after, a) == Opening(before, a)
  }

  // ---- The fold when rows come, change and go ----

  lemma FoldInsert(before: Db, after: Db, row: Actual, a: nat)
    requires forall i | i in before.actuals :: i < before.nextActual
    requires after.actuals == before.actuals[before.nextActual := row] && after.nextActual == before.nextActual + 1
    ensures Fold(after, a)
            == Fold(before, a) + (if row.account == Some(a) then SignedDelta(row.kind, row.amount) else 0)
  {
    SumSame(Share(before.actuals, a), Share(after.actuals, a), before.nextActual);
  }

  lemma FoldChange(before: Db, after: Db, id: nat, row: Actual, a: nat)
    requires id in before.actuals && id < before.nextActual && row.account == before.actuals[id].account
    requires after.actuals == before.actuals[id := row] && after.nextActual == before.nextActual
    ensures Fold(after, a) == Fold(before, a)
            + (if row.account == Some(a)
               then SignedDelta(row.kind, row.amount) - SignedDelta(before.actuals[id].kind, before.actuals[id].amount)
               else 0)
  {
    SumChanges(Share(before.actuals, a), Share(after.actuals, a), before.nextActual, id);
  }

  lemma FoldErase(before: Db, after: Db, gone: set<nat>, a: nat)
    requires after.actuals == before.actuals - gone && after.nextActual == before.nextActual
    ensures Fold(after, a) == Fold(before, a) - Contribution(before, gone, a)
  {
    SumAdds(Share(after.actuals, a), Only(gone, Share(before.actuals, a)), Share(before.actuals, a), before.nextActual);
  }

  lemma ContributionSplits(db: Db, part: set<nat>, whole: set<nat>, a: nat)
    requires part <= whole
    ensures Contribution(db, whole, a) == Contribution(db, part, a) + Contribution(db, whole - part, a)
  {
    var w := Share(db.actuals, a);
    SumAdds(Only(part, w), Only(whole - part, w), Only(whole, w), db.nextActual);
  }

  // ---- What each schema rule needs to survive a change ----

  lemma ActualsOkGrow(m: map<nat, Actual>, n: nat, ps: set<nat>, accts: set<nat>, ps': set<nat>, accts': set<nat>)
    requires ActualsOk(m, n, ps, accts) && ps <= ps' && accts <= accts'
    ensures ActualsOk(m, n, ps', accts')
  {
    assert forall i | i in m :: ActualRowOk(m, i, n, ps, accts);
  }

  lemma PlannedRowsOkGrow(m: map<nat, Planned>, n: nat, ps: set<nat>, subs: set<nat>, txns: set<nat>,
                          ps': set<nat>, txns': set<nat>)
    requires PlannedRowsOk(m, n, ps, subs, txns) && ps <= ps' && txns <= txns'
    ensures PlannedRowsOk(m, n, ps', subs, txns')
  {
  }

  lemma SubRowsOkGrow(m: map<nat, Subscription>, cats: set<nat>, accts: set<nat>, txns: set<nat>,
                      accts': set<nat>, txns': set<nat>)
    requires SubRowsOk(m, cats, accts, txns) && accts <= accts' && txns <= txns'
    ensures SubRowsOk(m, cats, accts', txns')
  {
  }

  lemma ActualIds(db: Db)
    requires Wf(db)
    ensures forall i | i in db.actuals :: i < db.nextActual
  {
    assert forall i | i in db.actuals :: ActualRowOk(db.actuals, i, db.nextActual, db.periods.Keys, db.accounts.Keys);
  }

  // ---- Creating a row ----

  // Only periods were added.
  predicate OnlyPeriodsGrew(before: Db, after: Db) {
    && after == before.(periods := after.periods, nextPeriod := after.nextPeriod)
    && (forall p | p in before.periods :: p in after.periods && after.periods[p] == before.periods[p])
  }

  lemma PeriodsOkInsert(db: Db, row: Period)
    requires PeriodsOk(db.periods, db.nextPeriod) && !PeriodClashes(db, row)
    ensures PeriodsOk(InsertPeriod(db, row).periods, InsertPeriod(db, row).nextPeriod)
  {
    assert forall p | p in db.periods :: db.periods[p].start != row.start && !(db.periods[p].active && row.active);
  }

  lemma InsertPeriodKeepsWf(db: Db, row: Period)
    requires Wf(db) && !PeriodClashes(db, row)
    ensures Wf(InsertPeriod(db, row)) && OnlyPeriodsGrew(db, InsertPeriod(db, row))
  {
    PeriodsOkInsert(db, row);
    assert forall p | p in db.periods :: p < db.nextPeriod;
    hide PeriodClashes, AccountsOk, PeriodsOk, ActualsOk, PlannedRowsOk, SubRowsOk,
      PlannedLinksUnique, ChargeDatesUnique, SubLinksUnique, CategoriesOk;
    var after := InsertPeriod(db, row);
    ActualsOkGrow(db.actuals, db.nextActual, db.periods.Keys, db.accounts.Keys, after.periods.Keys, db.accounts.Keys);
    PlannedRowsOkGrow(db.planned, db.nextPlanned, db.periods.Keys, db.subs.Keys, db.actuals.Keys,
                      after.periods.Keys, db.actuals.Keys);
  }

  lemma ResolveFrame(db: Db, d: Date, today: Date)
    ensures var after := ResolvePeriod(db, d, today).0;
            after == db.(periods := after.periods, nextPeriod := after.nextPeriod)
  {
    hide NewPeriod, PeriodCovering, PeriodClashes;
  }

  lemma ResolveKeepsTheRest(db: Db, d: Date, today: Date)
    requires Wf(db)
    ensures var (after, p) := ResolvePeriod(db, d, today);
            OnlyPeriodsGrew(db, after) && Wf(after) && (p.Some? ==> p.value in after.periods)
  {
    hide NewPeriod, PeriodCovering, PeriodClashes, Wf;
    var row := NewPeriod(d, db.cycleDay, 0, today);
    if PeriodCovering(db, d).None? && !PeriodClashes(db, row) {
      InsertPeriodKeepsWf(db, row);
    }
  }

  // The whole effect of a successful create.
  predicate Created(before: Db, after: Db, tx: NewActual, id: nat) {
    && id == before.nextActual && after.nextActual == id + 1
    && id in after.actuals && after.actuals == before.actuals[id := after.actuals[id]]
    && after.actuals[id] == Actual(after.actuals[id].period, tx.kind, tx.amount, tx.category, tx.date, tx.account,
        tx.parent)
    && (tx.account.Some? ==> tx.account.value in before.accounts)
    && (tx.parent.Some? ==> tx.parent.value in before.actuals)
    && after.accounts == (if tx.account.None? then before.accounts
                          else before.accounts[tx.account.value := before.accounts[tx.account.value].(
                                 balance := before.accounts[tx.account.value].balance + SignedDelta(tx.kind,
                                     tx.amount))])
    && OnlyPeriodsGrew(before.(accounts := after.accounts, actuals := after.actuals, nextActual := after.nextActual),
        after)
  }

  lemma InsertKeepsWf(db: Db, tx: NewActual, period: Option<nat>)
    requires Wf(db) && (period.Some? ==> period.value in db.periods)
    ensures var r := InsertActual(db, tx, period); r.Ok? ==> Wf(r.value.0)
  {
    var r := InsertActual(db, tx, period);
    if r.Ok? {
      var after := r.value.0;
      assert ActualsOk(after.actuals, after.nextActual, db.periods.Keys, db.accounts.Keys) by {
        assert forall i | i in db.actuals ::
            ActualRowOk(db.actuals, i, db.nextActual, db.periods.Keys, db.accounts.Keys);
      }
      hide AccountsOk, PeriodsOk, ActualsOk, PlannedRowsOk, SubRowsOk,
        PlannedLinksUnique, ChargeDatesUnique, SubLinksUnique, CategoriesOk;
      PlannedRowsOkGrow(db.planned, db.nextPlanned, db.periods.Keys, db.subs.Keys, db.actuals.Keys,
                        db.periods.Keys, after.actuals.Keys);
      SubRowsOkGrow(db.subs, db.categories.Keys, db.accounts.Keys, db.actuals.Keys,
                    db.accounts.Keys, after.actuals.Keys);
    }
  }

  lemma ApplyDeltaKeepsWf(db: Db, account: nat, delta: int)
    requires Wf(db)
    ensures var r := ApplyDelta(db, account, delta);
            r.Ok? ==> Wf(r.value) && r.value == db.(accounts := r.value.accounts)
                      && r.value.accounts.Keys == db.accounts.Keys
  {
    hide PeriodsOk, ActualsOk, PlannedRowsOk, SubRowsOk, PlannedLinksUnique, ChargeDatesUnique, SubLinksUnique,
        CategoriesOk;
    var r := ApplyDelta(db, account, delta);
    if r.Ok? {
      assert r.value.accounts.Keys == db.accounts.Keys;
    }
  }

  lemma CreateActualEffect(db: Db, tx: NewActual, today: Date)
    requires Wf(db)
    ensures var r := CreateActual(db, tx, today);
            r.Ok? ==> Created(db, r.value.0, tx, r.value.1) && Wf(r.value.0)
  {
    hide ResolvePeriod, CheckNewActual, Wf;
    var r := CreateActual(db, tx, today);
    if r.Ok? {
      var (resolved, period) := ResolvePeriod(db, tx.date, today);
      ResolveKeepsTheRest(db, tx.date, today);
      var inserted := InsertActual(resolved, tx, period).value.0;
      InsertKeepsWf(resolved, tx, period);
      if tx.account.Some? {
        ApplyDeltaKeepsWf(inserted, tx.account.value, SignedDelta(tx.kind, tx.amount));
      }
    }
  }

  lemma CreatedKeepsOpenings(before: Db, after: Db, tx: NewActual, id: nat)
    requires Wf(before) && Created(before, after, tx, id)
    ensures KeepsOpenings(before, after)
  {
    ActualIds(before);
    hide Wf;
    forall a | a in before.accounts
      ensures Opening(after, a) == Opening(before, a)
    {
      FoldInsert(before, after, after.actuals[id], a);
    }
  }

  lemma CreatedKeepsFlat(before: Db, after: Db, tx: NewActual, id: nat)
    requires Wf(before) && Flat(before.actuals) && Created(before, after, tx, id) && tx.parent.None?
    ensures Flat(after.actuals)
  {
    assert forall i | i in before.actuals ::
        ActualRowOk(before.actuals, i, before.nextActual, before.periods.Keys, before.accounts.Keys);
  }

  // ---- Changing a row ----

  function Rewrite(db: Db, id: nat, row: Actual): Db { db.(actuals := db.actuals[id := row]) }

  lemma RewriteKeepsActualsOk(db: Db, id: nat, row: Actual)
    requires Wf(db) && id in db.actuals && row.period in db.periods
    requires row.account == db.actuals[id].account && row.parent == db.actuals[id].parent
    ensures ActualsOk(db.actuals[id := row], db.nextActual, db.periods.Keys, db.accounts.Keys)
    ensures Flat(db.actuals) ==> Flat(db.actuals[id := row])
  {
    assert forall i | i in db.actuals :: ActualRowOk(db.actuals, i, db.nextActual, db.periods.Keys, db.accounts.Keys);
  }

  lemma RewriteKeepsWf(db: Db, id: nat, row: Actual)
    requires Wf(db) && id in db.actuals && row.period in db.periods
    requires row.account == db.actuals[id].account && row.parent == db.actuals[id].parent
    ensures Wf(Rewrite(db, id, row)) && (Flat(db.actuals) ==> Flat(Rewrite(db, id, row).actuals))
  {
    RewriteKeepsActualsOk(db, id, row);
    assert db.actuals[id := row].Keys == db.actuals.Keys;
    hide Flat, AccountsOk, PeriodsOk, ActualsOk, PlannedRowsOk, SubRowsOk,
      PlannedLinksUnique, ChargeDatesUnique, SubLinksUnique, CategoriesOk;
  }

  lemma ApplyDeltaShiftsOpening(db: Db, account: nat, delta: int, a: nat)
    requires ApplyDelta(db, account, delta).Ok? && a in db.accounts
    ensures a in ApplyDelta(db, account, delta).value.accounts
    ensures Opening(ApplyDelta(db, account, delta).value, a)
            == Opening(db, a) + (if a == account then delta else 0)
  {
    assert Fold(ApplyDelta(db, account, delta).value, a) == Fold(db, a);
  }

  lemma RewriteShiftsOpening(db: Db, id: nat, row: Actual, a: nat)
    requires Wf(db) && id in db.actuals && row.account == db.actuals[id].account && a in db.accounts
    ensures Opening(Rewrite(db, id, row), a) == Opening(db, a)
            - (if row.account == Some(a)
               then SignedDelta(row.kind, row.amount) - SignedDelta(db.actuals[id].kind, db.actuals[id].amount)
               else 0)
  {
    ActualIds(db);
    hide Wf;
    FoldChange(db, Rewrite(db, id, row), id, row, a);
  }

  lemma SettleKeepsOpening(db: Db, id: nat, next: Actual, a: nat)
    requires Wf(db) && id in db.actuals && next.account == db.actuals[id].account
    requires Settle(db, id, next).Ok? && a in db.accounts
    ensures a in Settle(db, id, next).value.accounts
    ensures Opening(Settle(db, id, next).value, a) == Opening(db, a)
  {
    hide Wf, SignedDelta, Opening, ApplyDelta;
    RewriteShiftsOpening(db, id, next, a);
    var change := SignedDelta(next.kind, next.amount) - SignedDelta(db.actuals[id].kind, db.actuals[id].amount);
    if next.account.Some? && change != 0 {
      ApplyDeltaShiftsOpening(Rewrite(db, id, next), next.account.value, change, a);
    }
  }

  lemma SettleKeepsWf(db: Db, id: nat, next: Actual)
    requires Wf(db) && id in db.actuals && next.period in db.periods
    requires next.account == db.actuals[id].account && next.parent == db.actuals[id].parent
    requires Settle(db, id, next).Ok?
    ensures var after := Settle(db, id, next).value;
            Wf(after) && after.accounts.Keys == db.accounts.Keys && (Flat(db.actuals) ==> Flat(after.actuals))
  {
    hide Wf, Flat, ApplyDelta, SignedDelta;
    RewriteKeepsWf(db, id, next);
    var change := SignedDelta(next.kind, next.amount) - SignedDelta(db.actuals[id].kind, db.actuals[id].amount);
    if next.account.Some? && change != 0 {
      ApplyDeltaKeepsWf(Rewrite(db, id, next), next.account.value, change);
    }
  }

  lemma SettleSound(db: Db, id: nat, next: Actual)
    requires Wf(db) && id in db.actuals && next.period in db.periods
    requires next.account == db.actuals[id].account && next.parent == db.actuals[id].parent
    requires Settle(db, id, next).Ok?
    ensures var after := Settle(db, id, next).value;
            Wf(after) && KeepsOpenings(db, after) && (Flat(db.actuals) ==> Flat(after.actuals))
  {
    hide Wf, Flat, Opening, Settle;
    SettleKeepsWf(db, id, next);
    forall a | a in db.accounts
      ensures a in Settle(db, id, next).value.accounts
      ensures Opening(Settle(db, id, next).value, a) == Opening(db, a)
    {
      SettleKeepsOpening(db, id, next, a);
    }
  }

  lemma PatchPeriodKeepsTheRest(db: Db, id: nat, patch: Patch, today: Date)
    requires Wf(db) && id in db.actuals
    ensures var (resolved, period) := PatchPeriod(db, db.actuals[id], patch, today);
            OnlyPeriodsGrew(db, resolved) && Wf(resolved) && (period.Some? ==> period.value in resolved.periods)
  {
    assert ActualRowOk(db.actuals, id, db.nextActual, db.periods.Keys, db.accounts.Keys);
    hide Wf, ResolvePeriod;
    if MovesDate(db.actuals[id], patch) {
      ResolveKeepsTheRest(db, patch.date.value, today);
    }
  }

  lemma KeepsOpeningsFrom(before: Db, same: Db, after: Db)
    requires same.accounts == before.accounts && same.actuals == before.actuals && same.nextActual == before.nextActual
    requires KeepsOpenings(same, after)
    ensures KeepsOpenings(before, after)
  {
    assert forall a :: Fold(same, a) == Fold(before, a);
  }

  lemma UpdateActualSound(db: Db, id: nat, patch: Patch, today: Date)
    requires Wf(db)
    ensures var r := UpdateActual(db, id, patch, today);
            r.Ok? ==> Wf(r.value) && KeepsOpenings(db, r.value) && (Flat(db.actuals) ==> Flat(r.value.actuals))
  {
    hide PatchPeriod, CheckPatch, Wf, Flat, Settle, KeepsOpenings, TooFarAhead;
    if UpdateActual(db, id, patch, today).Ok? {
      PatchPeriodKeepsTheRest(db, id, patch, today);
      var (resolved, period) := PatchPeriod(db, db.actuals[id], patch, today);
      SettleSound(resolved, id, Patched(db.actuals[id], patch, period.value));
      KeepsOpeningsFrom(db, resolved, UpdateActual(db, id, patch, today).value);
    }
  }

  // ---- Deleting a row with its cascade ----

  lemma CascadeIsClosed(db: Db, id: nat, r: nat)
    requires Wf(db) && r in db.actuals && db.actuals[r].parent.Some?
    requires db.actuals[r].parent.value in Cascade(db.actuals, id)
    ensures r in Cascade(db.actuals, id)
  {
    assert ActualRowOk(db.actuals, r, db.nextActual, db.periods.Keys, db.accounts.Keys);
  }

  lemma RestoredIsCascaded(db: Db, id: nat)
    requires Wf(db) && id in db.actuals
    ensures Restored(db.actuals, id) <= Cascade(db.actuals, id)
  {
    assert forall i | i in db.actuals :: ActualRowOk(db.actuals, i, db.nextActual, db.periods.Keys, db.accounts.Keys);
  }

  // Deeper descendants than the children exist only when links are nested.
  lemma FlatCascade(db: Db, id: nat)
    requires Wf(db) && Flat(db.actuals) && id in db.actuals
    ensures Cascade(db.actuals, id) == Restored(db.actuals, id)
  {
    RestoredIsCascaded(db, id);
    assert forall p | Descends(db.actuals, p, id) :: db.actuals[p].parent.Some?;
  }

  lemma EraseKeepsActualsOk(db: Db, id: nat)
    requires Wf(db) && id in db.actuals
    ensures ActualsOk(db.actuals - Cascade(db.actuals, id), db.nextActual, db.periods.Keys, db.accounts.Keys)
  {
    var gone := Cascade(db.actuals, id);
    var left := db.actuals - gone;
    forall i | i in left
      ensures ActualRowOk(left, i, db.nextActual, db.periods.Keys, db.accounts.Keys)
    {
      assert ActualRowOk(db.actuals, i, db.nextActual, db.periods.Keys, db.accounts.Keys);
      if db.actuals[i].parent.Some? && db.actuals[i].parent.value in gone {
        CascadeIsClosed(db, id, i);
      }
    }
  }

  lemma UnlinkKeepsPlannedOk(db: Db, gone: set<nat>)
    requires PlannedRowsOk(db.planned, db.nextPlanned, db.periods.Keys, db.subs.Keys, db.actuals.Keys)
    requires PlannedLinksUnique(db.planned) && ChargeDatesUnique(db.planned)
    ensures PlannedRowsOk(UnlinkPlanned(db.planned, gone), db.nextPlanned, db.periods.Keys, db.subs.Keys,
                          (db.actuals - gone).Keys)
    ensures PlannedLinksUnique(UnlinkPlanned(db.planned, gone)) && ChargeDatesUnique(UnlinkPlanned(db.planned, gone))
  {
    assert (db.actuals - gone).Keys == db.actuals.Keys - gone;
  }

  lemma UnlinkKeepsSubsOk(db: Db, gone: set<nat>)
    requires SubRowsOk(db.subs, db.categories.Keys, db.accounts.Keys, db.actuals.Keys) && SubLinksUnique(db.subs)
    ensures SubRowsOk(UnlinkSubs(db.subs, gone), db.categories.Keys, db.accounts.Keys, (db.actuals - gone).Keys)
    ensures SubLinksUnique(UnlinkSubs(db.subs, gone)) && UnlinkSubs(db.subs, gone).Keys == db.subs.Keys
  {
    assert (db.actuals - gone).Keys == db.actuals.Keys - gone;
  }

  lemma EraseKeepsWf(db: Db, id: nat, accounts: map<nat, Account>)
    requires Wf(db) && id in db.actuals
    requires accounts.Keys == db.accounts.Keys && AccountsOk(accounts, db.nextAccount)
    ensures Wf(EraseActuals(db, Cascade(db.actuals, id)).(accounts := accounts))
  {
    var gone := Cascade(db.actuals, id);
    EraseKeepsActualsOk(db, id);
    UnlinkKeepsPlannedOk(db, gone);
    UnlinkKeepsSubsOk(db, gone);
    hide Cascade, UnlinkPlanned, UnlinkSubs, AccountsOk, PeriodsOk, ActualsOk, PlannedRowsOk, SubRowsOk,
      PlannedLinksUnique, ChargeDatesUnique, SubLinksUnique, CategoriesOk;
  }

  lemma BalancesWithoutOk(db: Db, ids: set<nat>)
    requires AccountsOk(db.accounts, db.nextAccount)
    requires forall a | a in BalancesWithout(db, ids) :: InRange(BalancesWithout(db, ids)[a].balance)
    ensures AccountsOk(BalancesWithout(db, ids), db.nextAccount)
    ensures BalancesWithout(db, ids).Keys == db.accounts.Keys
  {
    hide Contribution;
  }

  // Deleting moves the unexplained part of each balance by what the cascaded
  // rows below the children had contributed: only those are not restored.
  lemma DeleteShiftsOpening(db: Db, id: nat, a: nat)
    requires Wf(db) && DeleteActual(db, id).Ok? && a in db.accounts
    ensures a in DeleteActual(db, id).value.accounts
    ensures Opening(DeleteActual(db, id).value, a)
            == Opening(db, a) + Contribution(db, Cascade(db.actuals, id) - Restored(db.actuals, id), a)
  {
    RestoredIsCascaded(db, id);
    hide Cascade, InRange, UnlinkPlanned, UnlinkSubs, Wf, Restored;
    var gone := Cascade(db.actuals, id);
    FoldErase(db, DeleteActual(db, id).value, gone, a);
    ContributionSplits(db, Restored(db.actuals, id), gone, a);
  }

  // So a delete keeps the ledger exact if and only if those rows had nothing
  // to restore.
  lemma DeleteKeepsOpeningsExactly(db: Db, id: nat)
    requires Wf(db) && DeleteActual(db, id).Ok?
    ensures KeepsOpenings(db, DeleteActual(db, id).value) <==>
            forall a | a in db.accounts ::
              Contribution(db, Cascade(db.actuals, id) - Restored(db.actuals, id), a) == 0
  {
    hide Opening, Cascade, Contribution, EraseActuals, Restored, Wf;
    forall a | a in db.accounts
      ensures a in DeleteActual(db, id).value.accounts
      ensures Opening(DeleteActual(db, id).value, a)
              == Opening(db, a) + Contribution(db, Cascade(db.actuals, id) - Restored(db.actuals, id), a)
    {
      DeleteShiftsOpening(db, id, a);
    }
  }

  lemma NothingContributesNothing(db: Db, a: nat)
    ensures Contribution(db, {}, a) == 0
  {
    SumZero(Only({}, Share(db.actuals, a)), db.nextActual);
  }

  lemma DeleteActualSound(db: Db, id: nat)
    requires Wf(db) && Flat(db.actuals)
    ensures var r := DeleteActual(db, id);
            r.Ok? ==> Wf(r.value) && Flat(r.value.actuals) && KeepsOpenings(db, r.value)
  {
    var r := DeleteActual(db, id);
    if r.Ok? {
      BalancesWithoutOk(db, Restored(db.actuals, id));
      EraseKeepsWf(db, id, BalancesWithout(db, Restored(db.actuals, id)));
      DeleteKeepsOpeningsExactly(db, id);
      FlatCascade(db, id);
      assert Cascade(db.actuals, id) - Restored(db.actuals, id) == {};
      hide Cascade, Restored, Wf, KeepsOpenings, Contribution;
      forall a | a in db.accounts
        ensures Contribution(db, {}, a) == 0
      {
        NothingContributesNothing(db, a);
      }
    }
  }

  // ---- Linking a planned row or a subscription to a row ----

  lemma LinkPlannedKeepsWf(db: Db, id: nat, row: Planned, posted: Option<nat>)
    requires Wf(db) && id in db.planned && row == db.planned[id].(posted := posted)
    requires LinkLive(posted, db.actuals.Keys)
    requires posted.Some? ==> forall i | i in db.planned :: db.planned[i].posted != posted
    ensures Wf(db.(planned := db.planned[id := row]))
  {
    hide AccountsOk, PeriodsOk, ActualsOk, SubRowsOk, SubLinksUnique, CategoriesOk;
  }

  lemma LinkSubKeepsWf(db: Db, s: nat, row: Subscription, posted: Option<nat>)
    requires Wf(db) && s in db.subs && row == db.subs[s].(posted := posted)
    requires LinkLive(posted, db.actuals.Keys)
    requires posted.Some? ==> forall t | t in db.subs :: db.subs[t].posted != posted
    ensures Wf(db.(subs := db.subs[s := row]))
  {
    assert db.subs[s := row].Keys == db.subs.Keys;
    hide AccountsOk, PeriodsOk, ActualsOk, PlannedRowsOk, PlannedLinksUnique, ChargeDatesUnique, CategoriesOk;
  }

  // A fresh transaction id is linked from nowhere.
  lemma FreshIdUnlinked(before: Db, after: Db, tx: NewActual, id: nat)
    requires Wf(before) && Created(before, after, tx, id)
    ensures forall i | i in after.planned :: after.planned[i].posted != Some(id)
    ensures forall s | s in after.subs :: after.subs[s].posted != Some(id)
  {
    ActualIds(before);
    hide AccountsOk, PeriodsOk, ActualsOk, PlannedLinksUnique, ChargeDatesUnique, SubLinksUnique, CategoriesOk;
  }
}
