// The cursor of a recurring payment against the occurrences it has
// materialised (app/services/subscriptions.py).
module RecurringTheorems {
  import opened Wrappers
  import opened Calendar
  import opened Recurrence
  import opened Database
  import opened Ledger
  import opened LedgerTheorems
  import opened PostingTheorems

  // Every materialised charge date lies before its subscription's cursor.
  predicate CursorAhead(db: Db) {
    forall i | i in db.planned && db.planned[i].sub.Some? && db.planned[i].chargeDate.Some?
               && db.planned[i].sub.value in db.subs ::
      Before(db.planned[i].chargeDate.value, db.subs[db.planned[i].sub.value].nextCharge)
  }

  // No cursor moved and no charge date was added.
  predicate SameCharges(before: Db, after: Db) {
    && after.subs.Keys == before.subs.Keys
    && (forall s | s in before.subs :: after.subs[s].nextCharge == before.subs[s].nextCharge)
    && (forall i | i in after.planned && after.planned[i].sub.Some? ::
          i in before.planned && before.planned[i].sub == after.planned[i].sub
          && before.planned[i].chargeDate == after.planned[i].chargeDate)
  }

  lemma SameChargesKeepCursorAhead(before: Db, after: Db)
    requires CursorAhead(before) && SameCharges(before, after)
    ensures CursorAhead(after)
  {
    hide Before;
  }

  // ---- Materialising ----

  lemma MaterialiseKeepsPlannedOk(db: Db, s: nat, period: nat)
    requires Wf(db) && s in db.subs && period in db.periods && !ChargeDateTaken(db, s, db.subs[s].nextCharge)
    ensures var m := db.planned[db.nextPlanned := OccurrenceRow(db, s, period)];
            PlannedRowsOk(m, db.nextPlanned + 1, db.periods.Keys, db.subs.Keys, db.actuals.Keys)
            && PlannedLinksUnique(m) && ChargeDatesUnique(m)
  {
    hide AccountsOk, PeriodsOk, ActualsOk, SubLinksUnique, IsDate, CategoriesOk;
  }

  lemma AdvanceKeepsSubsOk(db: Db, s: nat)
    requires Wf(db) && s in db.subs
    ensures var m := db.subs[s := AdvanceCursor(db.subs[s])];
            SubRowsOk(m, db.categories.Keys, db.accounts.Keys, db.actuals.Keys) && SubLinksUnique(m)
            && m.Keys == db.subs.Keys
  {
    hide AccountsOk, PeriodsOk, ActualsOk, PlannedRowsOk, PlannedLinksUnique, ChargeDatesUnique, AdvanceDate,
      CategoriesOk;
  }

  lemma AddToPeriodSound(db: Db, s: nat, period: nat, advance: bool)
    requires Wf(db) && Flat(db.actuals) && s in db.subs
    ensures db.subs[s].category in db.categories && Sound(db, AddToPeriod(db, s, period, advance).0)
  {
    assert SubRowOk(db.subs[s], db.categories.Keys, db.accounts.Keys, db.actuals.Keys);
    var after := AddToPeriod(db, s, period, advance).0;
    UntouchedMoney(db, after);
    if !ChargeDateTaken(db, s, db.subs[s].nextCharge) && period in db.periods {
      MaterialiseKeepsPlannedOk(db, s, period);
      AdvanceKeepsSubsOk(db, s);
    }
    hide Flat, KeepsOpenings, AccountsOk, PeriodsOk, ActualsOk, PlannedRowsOk, SubRowsOk,
      PlannedLinksUnique, ChargeDatesUnique, SubLinksUnique, ChargeDateTaken, OccurrenceRow, AdvanceCursor,
        CategoriesOk;
  }

  // While materialisation with advance moves the cursor, the cursor's own date
  // is never taken, so a conflict cannot come up ...
  lemma CursorAheadIsFree(db: Db, s: nat)
    requires CursorAhead(db) && s in db.subs
    ensures !ChargeDateTaken(db, s, db.subs[s].nextCharge)
  {
  }

  lemma AdvancedRowIsBehind(row: Subscription)
    requires row.interval >= 1
    ensures Before(row.nextCharge, AdvanceCursor(row).nextCharge)
  {
    AdvanceIsLater(row.nextCharge, row.interval, row.dayOfMonth);
  }

  // ... and each step keeps it that way.
  lemma AddToPeriodKeepsCursorAhead(db: Db, s: nat, period: nat)
    requires Wf(db) && CursorAhead(db) && s in db.subs && db.subs[s].category in db.categories
    ensures var (after, id) := AddToPeriod(db, s, period, true);
            CursorAhead(after) && (id.None? <==> period !in db.periods)
  {
    assert SubRowOk(db.subs[s], db.categories.Keys, db.accounts.Keys, db.actuals.Keys);
    CursorAheadIsFree(db, s);
    AdvancedRowIsBehind(db.subs[s]);
    hide Wf, ChargeDateTaken, AdvanceDate;
    var moved := AdvanceCursor(db.subs[s]).nextCharge;
    forall i | i in db.planned && db.planned[i].sub == Some(s) && db.planned[i].chargeDate.Some?
      ensures Before(db.planned[i].chargeDate.value, moved)
    {
      BeforeIsTransitive(db.planned[i].chargeDate.value, db.subs[s].nextCharge, moved);
    }
    hide Before, AdvanceCursor;
  }

  // Once its own date is taken, a cursor cannot be moved by materialisation:
  // every attempt conflicts and changes nothing.
  lemma TakenDateFreezesCursor(db: Db, s: nat, later: nat, advance: bool, today: Date)
    requires s in db.subs && db.subs[s].category in db.categories && ChargeDateTaken(db, s, db.subs[s].nextCharge)
    ensures AddToPeriod(db, s, later, advance) == (db, None)
    ensures ChargeSubscription(db, s, today) == Err(AlreadyCharged)
  {
    var resolved := ResolvePeriod(db, db.subs[s].nextCharge, today).0;
    ResolveFrame(db, db.subs[s].nextCharge, today);
    hide ResolvePeriod, OccurrenceRow, AdvanceCursor;
    assert resolved.planned == db.planned && resolved.subs == db.subs && resolved.categories == db.categories;
    assert ChargeDateTaken(resolved, s, resolved.subs[s].nextCharge);
    hide ChargeDateTaken;
  }

  // Materialising without advancing is what takes the cursor's own date.
  lemma WithoutAdvanceTheDateIsTaken(db: Db, s: nat, period: nat)
    requires s in db.subs && db.subs[s].category in db.categories
    requires AddToPeriod(db, s, period, false).1.Some?
    ensures var after := AddToPeriod(db, s, period, false).0;
            s in after.subs && after.subs == db.subs && after.categories == db.categories
            && ChargeDateTaken(after, s, after.subs[s].nextCharge)
  {
    var after := AddToPeriod(db, s, period, false).0;
    assert after.planned[db.nextPlanned].sub == Some(s);
  }

  lemma MaterialiseSound(db: Db, s: nat, period: nat)
    requires Wf(db) && Flat(db.actuals)
    ensures var r := Materialise(db, s, period); r.Ok? ==> Sound(db, r.value)
  {
    hide Wf, Flat, AddToPeriod, KeepsOpenings;
    if Materialise(db, s, period).Ok? {
      AddToPeriodSound(db, s, period, true);
    }
  }

  lemma MaterialiseKeepsCursorAhead(db: Db, s: nat, period: nat)
    requires Wf(db) && CursorAhead(db)
    ensures var r := Materialise(db, s, period); r.Ok? ==> CursorAhead(r.value)
  {
    hide Wf, CursorAhead, AddToPeriod;
    if Materialise(db, s, period).Ok? {
      AddToPeriodKeepsCursorAhead(db, s, period);
    }
  }

  lemma ChargeSubscriptionSound(db: Db, s: nat, today: Date)
    requires Wf(db) && Flat(db.actuals)
    ensures var r := ChargeSubscription(db, s, today); r.Ok? ==> Sound(db, r.value.0)
  {
    if s in db.subs {
      ResolveKeepsTheRest(db, db.subs[s].nextCharge, today);
      var (resolved, period) := ResolvePeriod(db, db.subs[s].nextCharge, today);
      if period.Some? {
        AddToPeriodSound(resolved, s, period.value, true);
        hide Wf, Flat, AddToPeriod, ResolvePeriod, KeepsOpenings;
        if ChargeSubscription(db, s, today).Ok? {
          KeepsOpeningsFrom(db, resolved, ChargeSubscription(db, s, today).value.0);
        }
      }
    }
  }

  lemma ChargeKeepsCursorAhead(db: Db, s: nat, today: Date)
    requires Wf(db) && CursorAhead(db)
    ensures var r := ChargeSubscription(db, s, today); r.Ok? ==> CursorAhead(r.value.0)
  {
    if s in db.subs {
      assert SubRowOk(db.subs[s], db.categories.Keys, db.accounts.Keys, db.actuals.Keys);
      ResolveKeepsTheRest(db, db.subs[s].nextCharge, today);
      var (resolved, period) := ResolvePeriod(db, db.subs[s].nextCharge, today);
      assert CursorAhead(resolved);
      if period.Some? {
        AddToPeriodKeepsCursorAhead(resolved, s, period.value);
      }
      hide Wf, CursorAhead, AddToPeriod, ResolvePeriod;
    }
  }
}
