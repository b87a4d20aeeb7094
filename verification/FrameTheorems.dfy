// What no service call touches: existing periods stay as they are, and cursors
// move by materialisation only.
module FrameTheorems {
  import opened Wrappers
  import opened Calendar
  import opened Sums
  import opened Database
  import opened Ledger
  import opened LedgerTheorems
  import opened BatchTheorems
  import opened Balances
  import opened BalanceTheorems
  import opened WalletTheorems
  import opened PeriodTheorems
  import opened Plans
  import opened RecurringTheorems
  import opened RunTheorems

  predicate PeriodsKept(before: Db, after: Db) {
    forall p | p in before.periods :: p in after.periods && after.periods[p] == before.periods[p]
  }

  // Periods that were all computed for the cycle day still are, new ones included.
  predicate CellsKept(before: Db, after: Db) {
    after.cycleDay == before.cycleDay && (Aligned(before) ==> Aligned(after))
  }

  // Existing periods, the account counter, cursors and charge dates are kept,
  // and new periods come from the partition.
  predicate Quiet(before: Db, after: Db) {
    && PeriodsKept(before, after) && CellsKept(before, after)
    && after.nextAccount == before.nextAccount && SameCharges(before, after)
  }

  lemma QuietChain(a: Db, b: Db, c: Db)
    requires Quiet(a, b) && Quiet(b, c)
    ensures Quiet(a, c)
  {
  }

  lemma ResolveKeepsCells(db: Db, d: Date, today: Date)
    ensures CellsKept(db, ResolvePeriod(db, d, today).0)
  {
    hide NewPeriod, PeriodCovering, PeriodClashes, AlignedRow;
    NewPeriodAligned(d, db.cycleDay, 0, today);
  }

  lemma CreateKeepsCells(db: Db, tx: NewActual, today: Date)
    ensures var r := CreateActual(db, tx, today); r.Ok? ==> CellsKept(db, r.value.0)
  {
    ResolveKeepsCells(db, tx.date, today);
    hide CheckNewActual, ResolvePeriod, InRange, SignedDelta, AllAligned;
  }

  lemma CreateIsQuiet(db: Db, tx: NewActual, today: Date)
    requires Wf(db)
    ensures var r := CreateActual(db, tx, today);
            r.Ok? ==> Quiet(db, r.value.0) && r.value.0.planned == db.planned && r.value.0.subs == db.subs
  {
    hide Wf, CreateActual, SignedDelta, CellsKept;
    CreateActualEffect(db, tx, today);
    CreateKeepsCells(db, tx, today);
  }

  lemma DeleteIsQuiet(db: Db, id: nat)
    ensures var r := DeleteActual(db, id); r.Ok? ==> Quiet(db, r.value)
  {
    hide Cascade, BalancesWithout, Restored, InRange, Unlink, AllAligned;
  }

  lemma SettleIsQuiet(db: Db, id: nat, next: Actual)
    requires id in db.actuals
    ensures var r := Settle(db, id, next); r.Ok? ==> Quiet(db, r.value)
  {
    hide InRange, SignedDelta, AllAligned;
  }

  lemma GrownPeriodsAreQuiet(db: Db, after: Db)
    requires OnlyPeriodsGrew(db, after) && CellsKept(db, after)
    ensures Quiet(db, after)
  {
    hide CellsKept;
  }

  lemma PatchKeepsCells(db: Db, row: Actual, patch: Patch, today: Date)
    ensures CellsKept(db, PatchPeriod(db, row, patch, today).0)
  {
    hide AllAligned, ResolvePeriod;
    if MovesDate(row, patch) {
      ResolveKeepsCells(db, patch.date.value, today);
    }
  }

  lemma UpdateIsQuiet(db: Db, id: nat, patch: Patch, today: Date)
    requires Wf(db)
    ensures var r := UpdateActual(db, id, patch, today); r.Ok? ==> Quiet(db, r.value)
  {
    if UpdateActual(db, id, patch, today).Ok? {
      PatchPeriodKeepsTheRest(db, id, patch, today);
      var (resolved, period) := PatchPeriod(db, db.actuals[id], patch, today);
      hide Wf, Quiet, PatchPeriod, CheckPatch, MovesDate, TooFarAhead, Settle, OnlyPeriodsGrew, CellsKept;
      PatchKeepsCells(db, db.actuals[id], patch, today);
      GrownPeriodsAreQuiet(db, resolved);
      SettleIsQuiet(resolved, id, Patched(db.actuals[id], patch, period.value));
      QuietChain(db, resolved, UpdateActual(db, id, patch, today).value);
    }
  }

  // Relinking one planned row or one subscription after a quiet step.
  lemma RelinkIsQuiet(db: Db, made: Db, after: Db)
    requires Quiet(db, made) && made.planned == db.planned && made.subs == db.subs
    requires after == made.(planned := after.planned, subs := after.subs)
    requires after.planned.Keys == db.planned.Keys && after.subs.Keys == db.subs.Keys
    requires forall i | i in db.planned :: after.planned[i] == db.planned[i].(posted := after.planned[i].posted)
    requires forall s | s in db.subs :: after.subs[s] == db.subs[s].(posted := after.subs[s].posted)
    ensures Quiet(db, after)
  {
  }

  lemma PostPlannedIsQuiet(db: Db, id: nat, date: Date, today: Date)
    requires Wf(db)
    ensures var r := PostPlanned(db, id, date, today); r.Ok? ==> Quiet(db, r.value.0)
  {
    hide Wf, CreateActual, Quiet, PostingOf;
    if PostPlanned(db, id, date, today).Ok? {
      var tx := PostingOf(db, db.planned[id], date);
      CreateIsQuiet(db, tx, today);
      RelinkIsQuiet(db, CreateActual(db, tx, today).value.0, PostPlanned(db, id, date, today).value.0);
    }
  }

  lemma PayIsQuiet(db: Db, id: nat, date: Date, amount: Option<int>, today: Date)
    requires Wf(db)
    ensures var r := PayOccurrence(db, id, date, amount, today); r.Ok? ==> Quiet(db, r.value.0)
  {
    hide Wf, CreateActual, Quiet, PaymentFor;
    if PayOccurrence(db, id, date, amount, today).Ok? {
      var tx := PaymentFor(db, db.planned[id], date, amount);
      CreateIsQuiet(db, tx, today);
      RelinkIsQuiet(db, CreateActual(db, tx, today).value.0, PayOccurrence(db, id, date, amount, today).value.0);
    }
  }

  lemma DirectPostIsQuiet(db: Db, s: nat, today: Date)
    requires Wf(db) && s in db.subs
    ensures var r := PostWithoutOccurrence(db, s, today); r.Ok? ==> Quiet(db, r.value.0)
  {
    hide Wf, CreateActual, Quiet, DirectPayment;
    if PostWithoutOccurrence(db, s, today).Ok? {
      CreateIsQuiet(db, DirectPayment(db.subs[s], today), today);
      RelinkIsQuiet(db, CreateActual(db, DirectPayment(db.subs[s], today), today).value.0,
                    PostWithoutOccurrence(db, s, today).value.0);
    }
  }

  lemma PostSubscriptionIsQuiet(db: Db, s: nat, today: Date)
    requires Wf(db)
    ensures var r := PostSubscription(db, s, today); r.Ok? ==> Quiet(db, r.value.0)
  {
    hide PayOccurrence, PostWithoutOccurrence, OccurrencesOf, Wf, Quiet;
    if s in db.subs {
      DirectPostIsQuiet(db, s, today);
      var period := ActivePeriod(db);
      if period.Some? && DueOccurrence(db, period.value, s).Some? {
        PayIsQuiet(db, DueOccurrence(db, period.value, s).value, today, None, today);
      }
    }
  }

  lemma UnpostPlannedIsQuiet(db: Db, id: nat)
    ensures var r := UnpostPlanned(db, id); r.Ok? ==> Quiet(db, r.value)
  {
    if UnpostPlanned(db, id).Ok? {
      var unlinked := db.(planned := db.planned[id := db.planned[id].(posted := None)]);
      assert Quiet(db, unlinked);
      hide DeleteActual, Quiet;
      DeleteIsQuiet(unlinked, db.planned[id].posted.value);
      QuietChain(db, unlinked, UnpostPlanned(db, id).value);
    }
  }

  lemma UnpostSubscriptionIsQuiet(db: Db, s: nat)
    ensures var r := UnpostSubscription(db, s); r.Ok? ==> Quiet(db, r.value)
  {
    if UnpostSubscription(db, s).Ok? {
      var unlinked := db.(subs := db.subs[s := db.subs[s].(posted := None)]);
      assert Quiet(db, unlinked);
      hide DeleteActual, Quiet;
      DeleteIsQuiet(unlinked, db.subs[s].posted.value);
      QuietChain(db, unlinked, UnpostSubscription(db, s).value);
    }
  }

  lemma {:induction false} BatchIsQuiet(db: Db, ids: seq<nat>, date: Option<Date>, today: Date)
    requires Wf(db)
    ensures var r := PostBatch(db, ids, date, today); r.Ok? ==> Quiet(db, r.value.0)
  {
    if |ids| == 0 {
      assert Quiet(db, db);
      hide Quiet;
    } else {
      hide *;
      var last := |ids| - 1;
      BatchLast(db, ids, date, today);
      BatchIsQuiet(db, ids[..last], date, today);
      var earlier := PostBatch(db, ids[..last], date, today);
      if earlier.Ok? {
        var mid := earlier.value.0;
        BatchPostsExactly(db, ids[..last], date, today);
        var line := LineDate(mid, ids[last], date, today);
        PostPlannedIsQuiet(mid, ids[last], line, today);
        var r := PostPlanned(mid, ids[last], line, today);
        if r.Ok? {
          QuietChain(db, mid, r.value.0);
        }
      }
    }
  }

  lemma ReconcileIsQuiet(db: Db, target: int, today: Date)
    requires Wf(db)
    ensures var r := Reconcile(db, target, today); r.Ok? ==> Quiet(db, r.value.0)
  {
    assert Quiet(db, db);
    hide Wf, CreateActual, ActivePeriod, Shortfall, FirstWithCode, ReconcilingTx, Quiet;
    var r := Reconcile(db, target, today);
    if r.Ok? && r.value.1.Some? {
      var category := FirstWithCode(db.categories, Adjustment, db.nextCategory).value;
      CreateIsQuiet(db, ReconcilingTx(db, Shortfall(db, target), category, today), today);
    }
  }

  lemma {:induction false} LinesHaveNoSub(m: map<nat, Planned>, lines: seq<TemplateLine>, next: nat, id: nat,
      period: Period)
    ensures forall i | i in WithLines(m, lines, next, id, period)
        && WithLines(m, lines, next, id, period)[i].sub.Some? ::
              i in m && WithLines(m, lines, next, id, period)[i] == m[i]
  {
    hide ClampPlannedDate;
    if |lines| == 0 {
    } else {
      LinesHaveNoSub(m, lines[..|lines| - 1], next, id, period);
    }
  }

  lemma TemplateIsQuiet(db: Db, period: nat)
    requires Wf(db)
    ensures var r := ApplyTemplate(db, period); r.Ok? ==> Quiet(db, r.value.0)
  {
    hide Wf, HasLimits, TemplateLimits, SyncedPlans, WithLines, AllAligned;
    if period in db.periods {
      LinesHaveNoSub(db.planned, db.templateLines, db.nextPlanned, period, db.periods[period]);
    }
  }

  // ---- Calls and runs ----

  predicate MovesCursor(c: Call) { c.Charge? || c.AddTo? }

  lemma OccurrenceCallIsQuiet(db: Db, c: Call, today: Date)
    requires c.Skip? || c.Postpone?
    ensures var r := Step(db, c, today); r.Ok? ==> Quiet(db, r.value)
  {
    match c
    case Skip(id) => assert SkipOccurrence(db, id).Ok? ==> Quiet(db, SkipOccurrence(db, id).value);
    case Postpone(id, date) =>
      assert PostponeOccurrence(db, id, date).Ok? ==> Quiet(db, PostponeOccurrence(db, id, date).value);
  }

  lemma PlanMonthIsQuiet(db: Db, plans: seq<(nat, int)>)
    ensures var r := UpdatePlanMonth(db, plans); r.Ok? ==> Quiet(db, r.value)
  {
    hide ExpensePlans, PlanSum, NamesUnknown, LimitsIncome, WithPlans, WithLimits, ActivePeriod;
  }

  // Every call but materialisation and the account calls is quiet.
  lemma CallIsQuiet(db: Db, c: Call, today: Date)
    requires Wf(db) && !AboutAccounts(c) && !MovesCursor(c)
    ensures var r := Step(db, c, today); r.Ok? ==> Quiet(db, r.value)
  {
    hide Wf, Quiet, CreateActual, UpdateActual, DeleteActual, Reconcile, PostPlanned, UnpostPlanned, PostBatch,
      PayOccurrence, PostSubscription, UnpostSubscription, ApplyTemplate, UpdatePlanMonth,
      SkipOccurrence, PostponeOccurrence;
    match c
    case Skip(_) => OccurrenceCallIsQuiet(db, c, today);
    case Postpone(_, _) => OccurrenceCallIsQuiet(db, c, today);
    case PlanMonth(plans) => PlanMonthIsQuiet(db, plans);
    case Create(kind, amount, category, date, account) =>
      CreateIsQuiet(db, NewActual(kind, amount, category, date, account, None), today);
    case Update(id, patch) => UpdateIsQuiet(db, id, patch, today);
    case Delete(id) => DeleteIsQuiet(db, id);
    case ReconcileTo(target) => ReconcileIsQuiet(db, target, today);
    case Post(id, date) => PostPlannedIsQuiet(db, id, date, today);
    case Unpost(id) => UnpostPlannedIsQuiet(db, id);
    case PostAll(ids, date) => BatchIsQuiet(db, ids, date, today);
    case Pay(id, date, amount) => PayIsQuiet(db, id, date, amount, today);
    case PostSub(sub) => PostSubscriptionIsQuiet(db, sub, today);
    case UnpostSub(sub) => UnpostSubscriptionIsQuiet(db, sub);
    case UseTemplate(period) => TemplateIsQuiet(db, period);
  }

  lemma ChargeKeepsPeriods(db: Db, s: nat, today: Date)
    requires Wf(db)
    ensures var r := ChargeSubscription(db, s, today);
            r.Ok? ==>
              PeriodsKept(db, r.value.0) && CellsKept(db, r.value.0) && r.value.0.nextAccount == db.nextAccount
  {
    hide Wf, ResolvePeriod, ChargeDateTaken, OccurrenceRow, AdvanceCursor, AllAligned;
    if s in db.subs {
      ResolveKeepsTheRest(db, db.subs[s].nextCharge, today);
      ResolveKeepsCells(db, db.subs[s].nextCharge, today);
    }
  }

  lemma MaterialiseKeepsPeriods(db: Db, s: nat, period: nat)
    ensures var r := Materialise(db, s, period);
            r.Ok? ==> PeriodsKept(db, r.value) && CellsKept(db, r.value) && r.value.nextAccount == db.nextAccount
  {
    hide ChargeDateTaken, OccurrenceRow, AdvanceCursor, AllAligned;
  }

  // ---- The cursor along every run ----

  lemma QuietKeepsCursorAhead(db: Db, after: Db)
    requires CursorAhead(db) && Quiet(db, after)
    ensures CursorAhead(after)
  {
    SameChargesKeepCursorAhead(db, after);
  }

  lemma CursorCallKeepsCursorAhead(db: Db, c: Call, today: Date)
    requires Wf(db) && CursorAhead(db) && MovesCursor(c)
    ensures Step(db, c, today).Ok? ==> CursorAhead(Step(db, c, today).value)
  {
    hide Wf, CursorAhead, ChargeSubscription, Materialise;
    match c
    case Charge(sub) => ChargeKeepsCursorAhead(db, sub, today);
    case AddTo(sub, period) => MaterialiseKeepsCursorAhead(db, sub, period);
  }

  lemma AccountCallKeepsRows(db: Db, c: Call, today: Date)
    requires AboutAccounts(c) && Step(db, c, today).Ok?
    ensures SameCharges(db, Step(db, c, today).value)
  {
    hide Referenced, InRange, Demote;
  }

  lemma CallKeepsCursorAhead(db: Db, c: Call, today: Date)
    requires Wf(db) && CursorAhead(db)
    ensures CursorAhead(Commit(db, c, today))
  {
    hide Wf, CursorAhead, Step, Quiet;
    if Step(db, c, today).Ok? {
      if AboutAccounts(c) {
        AccountCallKeepsRows(db, c, today);
        SameChargesKeepCursorAhead(db, Step(db, c, today).value);
      } else if MovesCursor(c) {
        CursorCallKeepsCursorAhead(db, c, today);
      } else {
        CallIsQuiet(db, c, today);
        QuietKeepsCursorAhead(db, Step(db, c, today).value);
      }
    }
  }

  lemma LedgeredIsWf(db: Db, o: map<nat, int>)
    requires Ledgered(db, o)
    ensures Wf(db) && Flat(db.actuals) && ChargeDatesUnique(db.planned)
  {
    hide Agrees, AccountsOk, PeriodsOk, ActualsOk, PlannedRowsOk, SubRowsOk, CategoriesOk;
  }

  // On every run each cursor stays strictly after all charge dates it has
  // materialised, so no two occurrences share a date and no charge conflicts.
  lemma {:induction false} RunKeepsCursorAhead(db: Db, o: map<nat, int>, calls: seq<(Call, Date)>)
    requires Ledgered(db, o) && CursorAhead(db)
    ensures CursorAhead(Run(db, calls)) && ChargeDatesUnique(Run(db, calls).planned)
    ensures forall s | s in Run(db, calls).subs ::
        !ChargeDateTaken(Run(db, calls), s, Run(db, calls).subs[s].nextCharge)
  {
    hide Ledgered, Commit, CursorAhead, ChargeDateTaken;
    if |calls| == 0 {
    } else {
      var rest := calls[..|calls| - 1];
      RunKeepsCursorAhead(db, o, rest);
      RunKeepsLedger(db, o, rest);
      LedgeredIsWf(Run(db, rest), OpeningsAlong(o, db, rest));
      CallKeepsCursorAhead(Run(db, rest), calls[|calls| - 1].0, calls[|calls| - 1].1);
    }
    RunKeepsLedger(db, o, calls);
    LedgeredIsWf(Run(db, calls), OpeningsAlong(o, db, calls));
    forall s | s in Run(db, calls).subs
      ensures !ChargeDateTaken(Run(db, calls), s, Run(db, calls).subs[s].nextCharge)
    {
      CursorAheadIsFree(Run(db, calls), s);
    }
  }

  // ---- The wallet against the displayed balance along every run ----

  predicate NoAccountCalls(calls: seq<(Call, Date)>) { forall k | 0 <= k < |calls| :: !AboutAccounts(calls[k].0) }

  lemma CursorCallKeepsPeriods(db: Db, c: Call, today: Date)
    requires Wf(db) && MovesCursor(c)
    ensures var r := Step(db, c, today);
            r.Ok? ==> PeriodsKept(db, r.value) && CellsKept(db, r.value) && r.value.nextAccount == db.nextAccount
  {
    hide Wf, ChargeSubscription, Materialise, CellsKept;
    match c
    case Charge(sub) => ChargeKeepsPeriods(db, sub, today);
    case AddTo(sub, period) => MaterialiseKeepsPeriods(db, sub, period);
  }

  lemma MoneyCallKeepsPeriods(db: Db, o: map<nat, int>, c: Call, today: Date)
    requires Ledgered(db, o) && !AboutAccounts(c)
    ensures PeriodsKept(db, Commit(db, c, today)) && CellsKept(db, Commit(db, c, today))
    ensures Commit(db, c, today).nextAccount == db.nextAccount && KeepsOpenings(db, Commit(db, c, today))
  {
    hide AllAligned;
    LedgeredIsWf(db, o);
    KeepsOpeningsReflexive(db);
    MoneyStepSound(db, c, today);
    if MovesCursor(c) {
      CursorCallKeepsPeriods(db, c, today);
      hide Ledgered, Wf, Flat, KeepsOpenings, Step;
    } else {
      CallIsQuiet(db, c, today);
      hide Ledgered, Wf, Flat, KeepsOpenings, Step, SameCharges;
    }
  }

  lemma AccountCallKeepsPeriods(db: Db, c: Call, today: Date)
    requires AboutAccounts(c)
    ensures PeriodsKept(db, Commit(db, c, today)) && CellsKept(db, Commit(db, c, today))
  {
    hide Referenced, InRange, Demote, AllAligned;
  }

  // Existing periods stay as they are on every run, and the opening balances
  // on every run without account calls.
  lemma {:induction false} RunKeepsPeriods(db: Db, o: map<nat, int>, calls: seq<(Call, Date)>)
    requires Ledgered(db, o)
    ensures PeriodsKept(db, Run(db, calls)) && CellsKept(db, Run(db, calls))
    ensures NoAccountCalls(calls) ==>
              Run(db, calls).nextAccount == db.nextAccount && KeepsOpenings(db, Run(db, calls))
  {
    hide AllAligned;
    if |calls| == 0 {
      KeepsOpeningsReflexive(db);
    } else {
      hide Ledgered, Commit, KeepsOpenings;
      var rest := calls[..|calls| - 1];
      var (c, today) := calls[|calls| - 1];
      RunKeepsPeriods(db, o, rest);
      RunKeepsLedger(db, o, rest);
      if AboutAccounts(c) {
        AccountCallKeepsPeriods(Run(db, rest), c, today);
      } else {
        MoneyCallKeepsPeriods(Run(db, rest), OpeningsAlong(o, db, rest), c, today);
        if NoAccountCalls(calls) {
          KeepsOpeningsChain(db, Run(db, rest), Run(db, calls));
        }
      }
    }
  }

  // The periods stay a part of the partition on every run of service calls:
  // each is the cell of its dates, and no date lies in two of them.
  lemma RunKeepsPartition(db: Db, o: map<nat, int>, calls: seq<(Call, Date)>)
    requires Ledgered(db, o) && Aligned(db)
    ensures Aligned(Run(db, calls)) && Disjoint(Run(db, calls))
  {
    RunKeepsPeriods(db, o, calls);
    RunKeepsLedger(db, o, calls);
    LedgeredIsWf(Run(db, calls), OpeningsAlong(o, db, calls));
    hide Ledgered, Run, AllAligned, Disjoint, AccountsOk, ActualsOk, PlannedRowsOk, PlannedLinksUnique, SubRowsOk,
      ChargeDatesUnique, SubLinksUnique, CategoriesOk, PeriodsOk;
    AlignedAreDisjoint(Run(db, calls));
  }

  function ValueIn(o: map<nat, int>): nat -> int { (a: nat) => if a in o then o[a] else 0 }

  // The opening balances of the accounts below n together.
  function OpeningsSum(o: map<nat, int>, n: nat): int { Sum(ValueIn(o), n) }

  lemma AgreedOpeningsTotal(db: Db, o: map<nat, int>)
    requires Agrees(db, o)
    ensures OpeningsTotal(db) == OpeningsSum(o, db.nextAccount)
  {
    OpeningsOfAgreement(db, o);
    hide Agrees, Opening;
    SumSame(OpeningOf(db), ValueIn(o), db.nextAccount);
  }

  // On every run, account calls and failed calls included: the wallet differs
  // from the displayed balance of the active period by the openings along the
  // run less what the period started from, plus the account rows the period
  // does not show, less the shown rows that sit on no account.
  lemma GapAlongEveryRun(db: Db, o: map<nat, int>, calls: seq<(Call, Date)>, period: nat)
    requires Ledgered(db, o) && ActivePeriod(db) == Some(period)
    ensures var after := Run(db, calls);
            && ActivePeriod(after) == Some(period)
            && Wallet(after) - BalanceNow(after, period)
               == OpeningsSum(OpeningsAlong(o, db, calls), after.nextAccount) - db.periods[period].starting
                  + Sum(Outside(after.actuals, period), after.nextActual)
                  - Sum(Unaccounted(after.actuals, period), after.nextActual)
  {
    var after := Run(db, calls);
    RunKeepsPeriods(db, o, calls);
    RunKeepsLedger(db, o, calls);
    LedgeredIsWf(db, o);
    LedgeredIsWf(after, OpeningsAlong(o, db, calls));
    ActivePeriodKept(db, after);
    AgreedOpeningsTotal(after, OpeningsAlong(o, db, calls));
    GapExplained(after, period);
    hide Ledgered, Run, Wf, KeepsOpenings, Wallet, BalanceNow, OpeningsTotal, ActivePeriod;
  }

  lemma {:induction false} OpeningsStay(o: map<nat, int>, db: Db, calls: seq<(Call, Date)>)
    requires NoAccountCalls(calls)
    ensures OpeningsAlong(o, db, calls) == o
  {
    hide Run, Step;
    if |calls| == 0 {
    } else {
      OpeningsStay(o, db, calls[..|calls| - 1]);
      assert !AboutAccounts(calls[|calls| - 1].0);
    }
  }
}
