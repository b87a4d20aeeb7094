// The services as they run: one session over the tables, changed row by row
// (app/services/actual.py, planned.py, subscriptions.py, accounts.py,
// periods.py, plan_month.py).
module Service {
  import opened Wrappers
  import opened Calendar
  import opened Recurrence
  import opened Sums
  import opened Database
  import opened Ledger
  import opened LedgerTheorems
  import opened BatchTheorems
  import opened Balances
  import opened Reports
  import opened ReportTheorems
  import opened Plans
  import opened RunTheorems
  import opened FrameTheorems
  import opened Onboarding
  import opened OnboardingTheorems
  import opened SeedingTheorems

  // A call returns its value and leaves the database as specified, or raises;
  // what a raising call leaves behind is for its transaction to roll back.
  predicate Follows<T(==)>(spec: Outcome<T>, r: Result<T, Error>, now: Db) {
    match spec
    case Ok((db, value)) => r == Ok(value) && now == db
    case Err(e) => r == Err(e)
  }

  predicate Raises(spec: Result<Db, Error>, raised: Option<Error>, now: Db) {
    match spec
    case Ok(db) => raised == None && now == db
    case Err(e) => raised == Some(e)
  }

  // ---- Restoring balances ----

  function Amount(affected: map<nat, int>, a: nat): int { if a in affected then affected[a] else 0 }

  function Credited(affected: map<nat, int>, row: Actual): map<nat, int> {
    if row.account.None? then affected
    else affected[row.account.value := Amount(affected, row.account.value) + -SignedDelta(row.kind, row.amount)]
  }

  // The dictionary holds what taking the rows `ids` back gives each account.
  ghost predicate GivesBack(db: Db, affected: map<nat, int>, ids: set<nat>) {
    forall a: nat :: Amount(affected, a) == -Contribution(db, ids, a)
  }

  predicate Booked(db: Db) {
    forall i | i in db.actuals ::
      i < db.nextActual && (db.actuals[i].account.Some? ==> db.actuals[i].account.value in db.accounts)
  }

  lemma WfBooked(db: Db, id: nat)
    requires Wf(db)
    ensures Booked(db) && id !in Children(db.actuals, id)
  {
    assert forall i | i in db.actuals ::
        ActualRowOk(db.actuals, i, db.nextActual, db.periods.Keys, db.accounts.Keys);
  }

  lemma ChildrenAreRows(m: map<nat, Actual>, id: nat)
    ensures Children(m, id) <= m.Keys
  {
  }

  lemma NothingGivenBack(db: Db)
    ensures GivesBack(db, map[], {})
  {
    hide Contribution;
    forall a: nat
      ensures Contribution(db, {}, a) == 0
    {
      NothingContributesNothing(db, a);
    }
  }

  lemma ContributionGrows(db: Db, ids: set<nat>, i: nat, a: nat)
    requires i < db.nextActual && i !in ids
    ensures Contribution(db, ids + {i}, a) == Contribution(db, ids, a) + Share(db.actuals, a)(i)
  {
    var w := Share(db.actuals, a);
    SumChanges(Only(ids, w), Only(ids + {i}, w), db.nextActual, i);
  }

  lemma CreditGivesBack(db: Db, affected: map<nat, int>, ids: set<nat>, i: nat)
    requires Booked(db) && i in db.actuals && i !in ids
    requires affected.Keys <= db.accounts.Keys && GivesBack(db, affected, ids)
    ensures Credited(affected, db.actuals[i]).Keys <= db.accounts.Keys
    ensures GivesBack(db, Credited(affected, db.actuals[i]), ids + {i})
  {
    hide Contribution, SignedDelta;
    forall a: nat
      ensures Amount(Credited(affected, db.actuals[i]), a) == -Contribution(db, ids + {i}, a)
    {
      ContributionGrows(db, ids, i, a);
    }
  }

  function PaidBack(m: map<nat, Account>, affected: map<nat, int>, done: set<nat>): map<nat, Account> {
    map a | a in m :: if a in done then m[a].(balance := m[a].balance + Amount(affected, a)) else m[a]
  }

  predicate Fits(m: map<nat, Account>, affected: map<nat, int>, a: nat)
    requires a in affected
  {
    a in m && InRange(m[a].balance + affected[a])
  }

  lemma NothingPaidBack(m: map<nat, Account>, affected: map<nat, int>)
    ensures PaidBack(m, affected, affected.Keys - affected.Keys) == m
  {
  }

  lemma ErasingKeepsAccounts(db: Db, gone: set<nat>)
    ensures EraseActuals(db, gone).accounts == db.accounts
  {
  }

  lemma PayingBack(m: map<nat, Account>, affected: map<nat, int>, done: set<nat>, a: nat)
    requires a in affected && a !in done && affected.Keys <= m.Keys
    ensures var paid := PaidBack(m, affected, done);
            && a in paid && paid[a] == m[a]
            && PaidBack(m, affected, done + {a}) == paid[a := m[a].(balance := m[a].balance + affected[a])]
  {
  }

  lemma PaidBackOverflows(before: Db, affected: map<nat, int>, id: nat)
    requires GivesBack(before, affected, Restored(before.actuals, id)) && affected.Keys <= before.accounts.Keys
    requires id in before.actuals && exists a | a in affected :: !Fits(before.accounts, affected, a)
    ensures Ledger.DeleteActual(before, id) == Err(IntegrityError)
  {
    hide Contribution, InRange, Restored;
    var a :| a in affected && !Fits(before.accounts, affected, a);
    assert affected[a] == Amount(affected, a);
    assert a in BalancesWithout(before, Restored(before.actuals, id));
  }

  lemma PaidBackBalances(before: Db, affected: map<nat, int>, ids: set<nat>)
    requires affected.Keys <= before.accounts.Keys && GivesBack(before, affected, ids)
    ensures PaidBack(before.accounts, affected, affected.Keys) == BalancesWithout(before, ids)
  {
    hide Contribution;
    forall a | a in before.accounts
      ensures PaidBack(before.accounts, affected, affected.Keys)[a] == BalancesWithout(before, ids)[a]
    {
      assert Amount(affected, a) == -Contribution(before, ids, a);
    }
  }

  lemma PaidBackInRange(before: Db, affected: map<nat, int>)
    requires Wf(before) && forall a | a in affected :: Fits(before.accounts, affected, a)
    ensures forall a | a in before.accounts :: InRange(PaidBack(before.accounts, affected, affected.Keys)[a].balance)
  {
    assert forall a | a in before.accounts :: InRange(before.accounts[a].balance);
    hide Wf;
  }

  lemma PaidBackKeys(m: map<nat, Account>, affected: map<nat, int>)
    ensures PaidBack(m, affected, affected.Keys).Keys == m.Keys
  {
  }

  lemma PaidBackFully(before: Db, affected: map<nat, int>, id: nat)
    requires Wf(before) && id in before.actuals && affected.Keys <= before.accounts.Keys
    requires GivesBack(before, affected, Restored(before.actuals, id))
    requires forall a | a in affected :: Fits(before.accounts, affected, a)
    ensures Ledger.DeleteActual(before, id)
            == Ok(EraseActuals(before, Cascade(before.actuals, id)).(
                    accounts := PaidBack(before.accounts, affected, affected.Keys)))
  {
    PaidBackInRange(before, affected);
    hide Wf, Contribution, InRange, Restored, Cascade, EraseActuals, BalancesWithout, PaidBack;
    PaidBackBalances(before, affected, Restored(before.actuals, id));
    PaidBackKeys(before.accounts, affected);
  }

  // ---- Frames ----

  lemma CreatedFrame(db: Db, tx: NewActual, today: Date)
    requires Wf(db) && CreateActual(db, tx, today).Ok?
    ensures var after := CreateActual(db, tx, today).value.0; after.planned == db.planned && after.subs == db.subs
  {
    CreateActualEffect(db, tx, today);
    hide Wf, CreateActual;
  }

  // ---- Plans, one row more ----

  lemma NoPlans(m: map<nat, Category>, limits: map<(nat, nat), int>, period: Option<nat>)
    ensures WithPlans(m, []) == m && WithLimits(limits, period, []) == limits
  {
  }

  lemma OnePlanMore(m: map<nat, Category>, plans: seq<(nat, int)>, k: nat)
    requires k < |plans| && plans[k].0 in m
    ensures var before := WithPlans(m, plans[..k]);
            plans[k].0 in before && WithPlans(m, plans[..k + 1])
                == before[plans[k].0 := before[plans[k].0].(plan := plans[k].1)]
    ensures WithPlans(m, plans[..k + 1]).Keys == m.Keys
  {
    assert plans[..k + 1][..k] == plans[..k];
  }

  lemma OneLimitMore(m: map<(nat, nat), int>, period: nat, plans: seq<(nat, int)>, k: nat)
    requires k < |plans|
    ensures var before := WithLimits(m, Some(period), plans[..k]);
            WithLimits(m, Some(period), plans[..k + 1])
            == if (period, plans[k].0) in before then before[(period, plans[k].0) := plans[k].1] else before
  {
    assert plans[..k + 1][..k] == plans[..k];
  }

  lemma NoActiveNoLimits(m: map<(nat, nat), int>, plans: seq<(nat, int)>)
    ensures WithLimits(m, None, plans) == m
  {
  }

  lemma NoExpense(db: Db, plans: seq<(nat, int)>)
    ensures ExpensePlans(db, plans[..0]) == [] && PlanSum([]) == 0
  {
  }

  lemma OneExpenseMore(db: Db, plans: seq<(nat, int)>, k: nat)
    requires k < |plans| && plans[k].0 in db.categories
    ensures var before := ExpensePlans(db, plans[..k]);
            && ExpensePlans(db, plans[..k + 1])
                == before + (if db.categories[plans[k].0].kind.Expense? then [plans[k]] else [])
            && PlanSum(before + [plans[k]]) == PlanSum(before) + plans[k].1
  {
    assert plans[..k + 1][..k] == plans[..k];
    assert (ExpensePlans(db, plans[..k]) + [plans[k]])[..|ExpensePlans(db, plans[..k])|]
        == ExpensePlans(db, plans[..k]);
  }

  lemma NoLines(m: map<nat, Planned>, lines: seq<TemplateLine>, next: nat, id: nat, period: Period)
    ensures WithLines(m, lines[..0], next, id, period) == m
  {
  }

  lemma OneLineMore(m: map<nat, Planned>, lines: seq<TemplateLine>, k: nat, next: nat, id: nat, period: Period)
    requires k < |lines|
    ensures WithLines(m, lines[..k + 1], next, id, period)
            == WithLines(m, lines[..k], next, id, period)[next + k := LineRow(lines[k], id, period)]
  {
    assert lines[..k + 1][..k] == lines[..k];
  }

  // All template items except those left, copied into the period.
  function Copied(db: Db, period: nat, left: set<nat>): Db {
    db.(limits := db.limits + TemplateLimits(db.templateItems - left, period),
        categories := SyncedPlans(db.categories, db.templateItems - left))
  }

  lemma EmptyTemplate(m: map<(nat, nat), int>, cats: map<nat, Category>, period: nat)
    ensures m + TemplateLimits(map[], period) == m && SyncedPlans(cats, map[]) == cats
  {
  }

  lemma NothingCopied(db: Db, period: nat)
    ensures Copied(db, period, db.templateItems.Keys) == db
  {
    EmptyTemplate(db.limits, db.categories, period);
    hide TemplateLimits, SyncedPlans;
    assert db.templateItems - db.templateItems.Keys == map[];
  }

  lemma AllCopied(db: Db, period: nat)
    ensures Copied(db, period, {})
            == db.(limits := db.limits + TemplateLimits(db.templateItems, period),
                   categories := SyncedPlans(db.categories, db.templateItems))
  {
    assert db.templateItems - {} == db.templateItems;
    hide TemplateLimits, SyncedPlans;
  }

  lemma OneLimitCopied(db: Db, period: nat, left: set<nat>, c: nat)
    requires c in left && left <= db.templateItems.Keys
    ensures db.limits + TemplateLimits(db.templateItems - (left - {c}), period)
            == (db.limits + TemplateLimits(db.templateItems - left, period))[(period, c) := db.templateItems[c]]
  {
  }

  lemma OnePlanSynced(db: Db, left: set<nat>, c: nat)
    requires c in left && left <= db.templateItems.Keys
    ensures var cats := SyncedPlans(db.categories, db.templateItems - left);
            SyncedPlans(db.categories, db.templateItems - (left - {c}))
            == if c in cats && !cats[c].kind.Income? then cats[c := cats[c].(plan := db.templateItems[c])] else cats
  {
  }

  lemma OneItemMore(db: Db, period: nat, left: set<nat>, c: nat)
    requires c in left && left <= db.templateItems.Keys
    ensures var items, done := db.templateItems, Copied(db, period, left);
            Copied(db, period, left - {c})
            == done.(limits := done.limits[(period, c) := items[c]],
                     categories := if c in done.categories && !done.categories[c].kind.Income?
                                   then done.categories[c := done.categories[c].(plan := items[c])]
                                       else done.categories)
  {
    OneLimitCopied(db, period, left, c);
    OnePlanSynced(db, left, c);
    hide TemplateLimits, SyncedPlans;
  }

  // ---- Requests ----

  function Raised<T>(r: Result<T, Error>): Option<Error> { if r.Ok? then None else Some(r.error) }

  lemma CommitMeans(start: Db, c: Call, today: Date, raised: Option<Error>, now: Db)
    requires if raised.Some? then now == start else Raises(Step(start, c, today), raised, now)
    requires raised.Some? ==> Step(start, c, today).Err?
    ensures now == Commit(start, c, today)
  {
    hide Step;
  }

  lemma RaisedMeansErr(spec: Result<Db, Error>, raised: Option<Error>, now: Db)
    requires Raises(spec, raised, now)
    ensures raised.Some? <==> spec.Err?
  {
  }

  lemma EmptyRun(db: Db, calls: seq<(Call, Date)>)
    ensures Run(db, calls[..0]) == db
  {
  }

  lemma RunGrows(db: Db, calls: seq<(Call, Date)>, k: nat)
    requires k < |calls|
    ensures Run(db, calls[..k + 1]) == Commit(Run(db, calls[..k]), calls[k].0, calls[k].1)
  {
    hide Commit;
    assert calls[..k + 1][..k] == calls[..k];
  }

  // ---- Batch results ----

  // The transactions of the posted positions, in order.
  function PostedTxns(results: seq<Option<nat>>): seq<nat> {
    if |results| == 0 then []
    else
      var last := results[|results| - 1];
      PostedTxns(results[..|results| - 1]) + (if last.Some? then [last.value] else [])
  }

  // The ids of the other positions, in order.
  function SkippedIds(ids: seq<nat>, results: seq<Option<nat>>): seq<nat>
    requires |ids| == |results|
  {
    if |ids| == 0 then []
    else
      var last := |ids| - 1;
      SkippedIds(ids[..last], results[..last]) + (if results[last].None? then [ids[last]] else [])
  }

  lemma FollowsMeans<T>(spec: Outcome<T>, r: Result<T, Error>, now: Db)
    requires Follows(spec, r, now)
    ensures spec.Ok? ==> r == Ok(spec.value.1) && now == spec.value.0
    ensures spec.Err? ==> r == Err(spec.error)
  {
  }

  lemma EmptyBatch(db: Db, ids: seq<nat>, date: Option<Date>, today: Date)
    ensures PostBatch(db, ids[..0], date, today) == Ok((db, []))
    ensures PostedTxns([]) == [] && SkippedIds(ids[..0], []) == []
  {
  }

  // One more position.
  lemma BatchGrows(db: Db, ids: seq<nat>, k: nat, date: Option<Date>, today: Date)
    requires k < |ids| && PostBatch(db, ids[..k], date, today).Ok?
    ensures var (before, results) := PostBatch(db, ids[..k], date, today).value;
            var next := PostPlanned(before, ids[k], LineDate(before, ids[k], date, today), today);
            PostBatch(db, ids[..k + 1], date, today)
            == if next.Ok? then Ok((next.value.0, results + [Some(next.value.1)]))
               else if Skippable(next.error) then Ok((before, results + [None])) else Err(next.error)
  {
    hide *;
    assert ids[..k + 1][..k] == ids[..k];
    BatchLast(db, ids[..k + 1], date, today);
  }

  lemma ListsGrow(ids: seq<nat>, k: nat, results: seq<Option<nat>>, next: Option<nat>)
    requires k < |ids| && |results| == k
    ensures PostedTxns(results + [next]) == PostedTxns(results) + (if next.Some? then [next.value] else [])
    ensures SkippedIds(ids[..k + 1], results + [next])
        == SkippedIds(ids[..k], results) + (if next.None? then [ids[k]] else [])
  {
    assert (results + [next])[..k] == results;
    assert ids[..k + 1][..k] == ids[..k];
  }

  // A batch that fails on a prefix fails as a whole with the same error.
  lemma {:induction false} BatchStops(db: Db, ids: seq<nat>, k: nat, date: Option<Date>, today: Date)
    requires k <= |ids| && PostBatch(db, ids[..k], date, today).Err?
    ensures PostBatch(db, ids, date, today) == PostBatch(db, ids[..k], date, today)
    decreases |ids|
  {
    hide PostPlanned, LineDate;
    if k < |ids| {
      var rest := ids[..|ids| - 1];
      assert rest[..k] == ids[..k];
      BatchStops(db, rest, k, date, today);
    } else {
      assert ids[..k] == ids;
    }
  }

  // ---- The session ----

  class Session {
    // The rows as the current transaction sees them.
    var db: Db

    constructor (start: Db)
      ensures db == start
    {
      db := start;
    }

    // ---- Accounts ----

    // One UPDATE ... RETURNING.
    method ApplyBalanceDelta(account: nat, delta: int) returns (raised: Option<Error>)
      modifies this
      ensures Raises(ApplyDelta(old(db), account, delta), raised, db)
    {
      if account !in db.accounts {
        return Some(AccountNotFound);
      }
      var balance := db.accounts[account].balance + delta;
      if !InRange(balance) {
        return Some(IntegrityError);
      }
      db := db.(accounts := db.accounts[account := db.accounts[account].(balance := balance)]);
      return None;
    }

    method DemoteExistingPrimary()
      modifies this
      ensures db == old(db).(accounts := Demote(old(db).accounts))
      ensures db.accounts.Keys == old(db).accounts.Keys
      ensures forall a | a in db.accounts ::
                !db.accounts[a].primary && db.accounts[a].balance == old(db).accounts[a].balance
    {
      db := db.(accounts := map a | a in db.accounts :: db.accounts[a].(primary := false));
    }

    method CreateAccount(balance: int, primary: bool) returns (r: Result<nat, Error>)
      modifies this
      ensures Follows(Ledger.CreateAccount(old(db), balance, primary), r, db)
    {
      var autoPrimary := |db.accounts| == 0;
      if primary || autoPrimary {
        DemoteExistingPrimary();
      }
      if !InRange(balance) {
        return Err(IntegrityError);
      }
      var id := db.nextAccount;
      db := db.(accounts := db.accounts[id := Account(balance, primary || autoPrimary)], nextAccount := id + 1);
      return Ok(id);
    }

    method UpdateAccount(account: nat, primary: Option<bool>, balance: Option<int>) returns (raised: Option<Error>)
      modifies this
      ensures Raises(Ledger.UpdateAccount(old(db), account, primary, balance), raised, db)
    {
      if account !in db.accounts {
        return Some(AccountNotFound);
      }
      var row := db.accounts[account];
      if primary == Some(true) && !row.primary {
        DemoteExistingPrimary();
        row := row.(primary := true);
      } else if primary == Some(false) && row.primary {
        if |db.accounts| > 1 {
          return Some(SolePrimary);
        }
        row := row.(primary := false);
      }
      if balance.Some? {
        row := row.(balance := balance.value);
      }
      if balance.Some? && !InRange(row.balance) {
        return Some(IntegrityError);
      }
      db := db.(accounts := db.accounts[account := row]);
      return None;
    }

    method DeleteAccount(account: nat) returns (raised: Option<Error>)
      modifies this
      ensures Raises(Ledger.DeleteAccount(old(db), account), raised, db)
    {
      if account !in db.accounts {
        return Some(AccountNotFound);
      }
      if Referenced(db, account) {
        return Some(AccountHasTxns);
      }
      if db.accounts[account].primary && exists b | b in db.accounts :: b != account {
        return Some(SolePrimary);
      }
      db := db.(accounts := db.accounts - {account});
      return None;
    }

    // ---- Periods ----

    // The INSERT runs in a savepoint: a clash leaves no trace, and the look-up
    // runs once more.
    method ResolvePeriod(d: Date, today: Date) returns (period: Option<nat>)
      modifies this
      ensures (db, period) == Ledger.ResolvePeriod(old(db), d, today)
    {
      hide PeriodCovering, PeriodClashes, NewPeriod;
      period := PeriodCovering(db, d);
      if period.None? {
        var row := NewPeriod(d, db.cycleDay, 0, today);
        if PeriodClashes(db, row) {
          period := PeriodCovering(db, d);
        } else {
          period := Some(db.nextPeriod);
          db := db.(periods := db.periods[db.nextPeriod := row], nextPeriod := db.nextPeriod + 1);
        }
      }
    }

    method CreateFirstPeriod(starting: int, today: Date) returns (r: Result<nat, Error>)
      modifies this
      ensures Follows(Ledger.CreateFirstPeriod(old(db), starting, today), r, db)
    {
      hide PeriodClashes, NewPeriod;
      var row := NewPeriod(today, db.cycleDay, starting, today).(active := true);
      if PeriodClashes(db, row) {
        return Err(IntegrityError);
      }
      var id := db.nextPeriod;
      db := db.(periods := db.periods[id := row], nextPeriod := id + 1);
      return Ok(id);
    }

    // ---- Actual transactions ----

    method CreateActual(tx: NewActual, today: Date) returns (r: Result<nat, Error>)
      modifies this
      ensures Follows(Ledger.CreateActual(old(db), tx, today), r, db)
    {
      hide CheckNewActual, Ledger.ResolvePeriod, SignedDelta, InRange;
      var refused := CheckNewActual(db, tx, today);
      if refused.Some? {
        return Err(refused.value);
      }
      var period := ResolvePeriod(tx.date, today);
      if period.None?
         || (tx.account.Some? && tx.account.value !in db.accounts)
         || (tx.parent.Some? && tx.parent.value !in db.actuals) {
        return Err(IntegrityError);
      }
      var id := db.nextActual;
      var row := Actual(period.value, tx.kind, tx.amount, tx.category, tx.date, tx.account, tx.parent);
      db := db.(actuals := db.actuals[id := row], nextActual := id + 1);
      if tx.account.Some? {
        var raised := ApplyBalanceDelta(tx.account.value, SignedDelta(tx.kind, tx.amount));
        if raised.Some? {
          return Err(raised.value);
        }
      }
      return Ok(id);
    }

    method UpdateActual(id: nat, patch: Patch, today: Date) returns (raised: Option<Error>)
      requires Wf(db)
      modifies this
      ensures Raises(Ledger.UpdateActual(old(db), id, patch, today), raised, db)
    {
      hide Wf, CheckPatch, Ledger.ResolvePeriod, SignedDelta, InRange, TooFarAhead, Patched;
      if id !in db.actuals {
        return Some(ActualNotFound);
      }
      var row := db.actuals[id];
      var refused := CheckPatch(db, row, patch);
      if refused.Some? {
        return refused;
      }
      var oldSigned := SignedDelta(row.kind, row.amount);
      var period := Some(row.period);
      if MovesDate(row, patch) {
        if TooFarAhead(patch.date.value, today) {
          return Some(FutureDate);
        }
        period := ResolvePeriod(patch.date.value, today);
      }
      if period.None? {
        return Some(IntegrityError);
      }
      PatchPeriodKeepsTheRest(old(db), id, patch, today);
      var next := Patched(row, patch, period.value);
      db := db.(actuals := db.actuals[id := next]);
      if row.account.Some? {
        var newSigned := SignedDelta(next.kind, next.amount);
        if newSigned != oldSigned {
          raised := ApplyBalanceDelta(row.account.value, newSigned - oldSigned);
          return;
        }
      }
      return None;
    }

    // The accounts of the row and of its direct children, with what each gets back.
    method Restorations(id: nat) returns (affected: map<nat, int>)
      requires Booked(db) && id in db.actuals && id !in Children(db.actuals, id)
      ensures affected.Keys <= db.accounts.Keys
      ensures GivesBack(db, affected, Restored(db.actuals, id))
    {
      hide Booked, GivesBack, Children, Credited;
      NothingGivenBack(db);
      affected := Credited(map[], db.actuals[id]);
      CreditGivesBack(db, map[], {}, id);
      var left := Children(db.actuals, id);
      ghost var done := {} + {id};
      ChildrenAreRows(db.actuals, id);
      while left != {}
        invariant left <= Children(db.actuals, id) && done == Restored(db.actuals, id) - left
        invariant affected.Keys <= db.accounts.Keys && GivesBack(db, affected, done)
        decreases |left|
      {
        var child :| child in left;
        CreditGivesBack(db, affected, done, child);
        affected := Credited(affected, db.actuals[child]);
        left, done := left - {child}, done + {child};
      }
      assert done == Restored(db.actuals, id);
    }

    // apply_balance_delta for every account that gets something back.
    method PayBack(affected: map<nat, int>) returns (raised: Option<Error>)
      requires affected.Keys <= db.accounts.Keys && forall a | a in db.accounts :: InRange(db.accounts[a].balance)
      modifies this
      ensures raised.None? ==>
                && db == old(db).(accounts := PaidBack(old(db).accounts, affected, affected.Keys))
                && forall a | a in affected :: Fits(old(db).accounts, affected, a)
      ensures raised.Some? ==>
                raised == Some(IntegrityError)
                && exists a | a in affected :: !Fits(old(db).accounts, affected, a)
    {
      hide InRange, PaidBack;
      ghost var before := db;
      NothingPaidBack(db.accounts, affected);
      var left := affected.Keys;
      while left != {}
        invariant left <= affected.Keys
        invariant db == before.(accounts := PaidBack(before.accounts, affected, affected.Keys - left))
        invariant forall a | a in affected && a !in left :: Fits(before.accounts, affected, a)
        decreases |left|
      {
        var a :| a in left;
        PayingBack(before.accounts, affected, affected.Keys - left, a);
        if affected[a] != 0 {
          raised := ApplyBalanceDelta(a, affected[a]);
          if raised.Some? {
            return;
          }
        }
        assert affected.Keys - (left - {a}) == affected.Keys - left + {a};
        left := left - {a};
      }
      assert affected.Keys - left == affected.Keys;
      return None;
    }

    method DeleteActual(id: nat) returns (raised: Option<Error>)
      requires Wf(db)
      modifies this
      ensures Raises(Ledger.DeleteActual(old(db), id), raised, db)
    {
      if id !in db.actuals {
        return Some(ActualNotFound);
      }
      WfBooked(db, id);
      assert forall a | a in db.accounts :: InRange(db.accounts[a].balance);
      hide Wf, EraseActuals, Cascade, GivesBack, Booked, InRange, Restored, Contribution, PaidBack, Fits;
      var affected := Restorations(id);
      // DELETE with the referential actions of the schema.
      db := EraseActuals(db, Cascade(db.actuals, id));
      ErasingKeepsAccounts(old(db), Cascade(old(db).actuals, id));
      raised := PayBack(affected);
      if raised.Some? {
        PaidBackOverflows(old(db), affected, id);
      } else {
        PaidBackFully(old(db), affected, id);
      }
    }

    method Reconcile(target: int, today: Date) returns (r: Result<Option<nat>, Error>)
      requires Wf(db)
      modifies this
      ensures Follows(Balances.Reconcile(old(db), target, today), r, db)
    {
      hide Wf, Ledger.CreateActual, ReportOf, BalanceNow, FirstWithCode, LatestOf, FirstPrimary;
      var period := ActivePeriod(db);
      if period.None? {
        return Err(PeriodNotFound);
      }
      var report := ComputeBalance(db, period.value);
      BalanceNowIsTheFold(db, period.value);
      var delta := target - report.value.balanceNow;
      if delta == 0 {
        return Ok(None);
      }
      var adjustment := FirstWithCode(db.categories, Adjustment, db.nextCategory);
      if adjustment.None? {
        return Err(InvalidCategory);
      }
      var kind := if delta > 0 then Income else Expense;
      var made := CreateActual(NewActual(kind, Abs(delta), adjustment.value, today, PrimaryAccount(db), None), today);
      match made {
        case Ok(txn) => return Ok(Some(txn));
        case Err(e) => return Err(e);
      }
    }

    // ---- Planned rows ----

    // Inside a savepoint: whatever fails leaves no trace, and a violation of
    // the schema reads as "already posted".
    method PostPlanned(id: nat, date: Date, today: Date) returns (r: Result<nat, Error>)
      modifies this
      ensures Follows(Ledger.PostPlanned(old(db), id, date, today), r, db)
      ensures r.Err? ==> db == old(db)
    {
      hide Ledger.CreateActual, FirstPrimary, SignedForStorage;
      if id !in db.planned {
        return Err(PlannedNotFound);
      }
      var row := db.planned[id];
      if row.source.SubscriptionAuto? {
        return Err(PlannedReadOnly);
      }
      if row.posted.Some? {
        return Err(PlannedAlreadyPosted);
      }
      var savepoint := db;
      var amount := SignedForStorage(row.kind, row.amount);
      var made := CreateActual(NewActual(row.kind, amount, row.category, date, PrimaryAccount(db), None), today);
      if made.Err? {
        db := savepoint;
        return Err(if made.error.IntegrityError? then PlannedAlreadyPosted else made.error);
      }
      db := db.(planned := db.planned[id := row.(posted := Some(made.value))]);
      return made;
    }

    method UnpostPlanned(id: nat) returns (raised: Option<Error>)
      requires Wf(db)
      modifies this
      ensures Raises(Ledger.UnpostPlanned(old(db), id), raised, db)
    {
      hide Wf, Ledger.DeleteActual;
      if id !in db.planned {
        return Some(PlannedNotFound);
      }
      var row := db.planned[id];
      if row.posted.None? {
        return Some(PlannedNotPosted);
      }
      LinkPlannedKeepsWf(db, id, row.(posted := None), None);
      db := db.(planned := db.planned[id := row.(posted := None)]);
      raised := DeleteActual(row.posted.value);
    }

    // Posts what it can, in the given order; the two lists come back.
    method PostPlannedBatch(ids: seq<nat>, date: Option<Date>, today: Date)
        returns (r: Result<(seq<nat>, seq<nat>), Error>)
      modifies this
      ensures match PostBatch(old(db), ids, date, today)
              case Ok((after, results)) => db == after && r == Ok((PostedTxns(results), SkippedIds(ids, results)))
              case Err(e) => r == Err(e)
    {
      hide *;
      var posted, skipped: seq<nat> := [], [];
      ghost var results: seq<Option<nat>> := [];
      EmptyBatch(db, ids, date, today);
      for k := 0 to |ids|
        invariant |results| == k && posted == PostedTxns(results) && skipped == SkippedIds(ids[..k], results)
        invariant PostBatch(old(db), ids[..k], date, today) == Ok((db, results))
      {
        BatchGrows(old(db), ids, k, date, today);
        label Before:
        var txn := PostPlanned(ids[k], LineDate(db, ids[k], date, today), today);
        FollowsMeans(Ledger.PostPlanned(old@Before(db), ids[k], LineDate(old@Before(db), ids[k], date, today), today),
            txn, db);
        if txn.Ok? {
          ListsGrow(ids, k, results, Some(txn.value));
          posted, results := posted + [txn.value], results + [Some(txn.value)];
        } else if Skippable(txn.error) {
          ListsGrow(ids, k, results, None);
          skipped, results := skipped + [ids[k]], results + [None];
        } else {
          BatchStops(old(db), ids, k + 1, date, today);
          return Err(txn.error);
        }
      }
      assert ids[..|ids|] == ids;
      return Ok((posted, skipped));
    }

    // ---- Recurring payments ----

    // One code path for every way to pay an occurrence.
    method PayOccurrence(id: nat, date: Date, amount: Option<int>, today: Date) returns (r: Result<nat, Error>)
      requires Wf(db)
      modifies this
      ensures Follows(Ledger.PayOccurrence(old(db), id, date, amount, today), r, db)
    {
      hide Wf, Ledger.CreateActual, FirstPrimary, SignedForStorage;
      if id !in db.planned || !db.planned[id].source.SubscriptionAuto? {
        return Err(OccurrenceNotFound);
      }
      var row := db.planned[id];
      var sub := PayingSub(db, row);
      if row.posted.Some? {
        return Err(OccurrenceAlreadyPaid);
      }
      var account: Option<nat> := None;
      if sub.Some? {
        account := db.subs[sub.value].account;
      }
      if account.None? {
        account := PrimaryAccount(db);
      }
      var base := if amount.Some? then amount.value else row.amount;
      var tx := NewActual(row.kind, SignedForStorage(row.kind, base), row.category, date, account, None);
      r := CreateActual(tx, today);
      if r.Err? {
        return;
      }
      CreatedFrame(old(db), tx, today);
      db := db.(planned := db.planned[id := row.(posted := Some(r.value))]);
      if sub.Some? {
        // The subscription's link is an informational mirror.
        db := db.(subs := db.subs[sub.value := db.subs[sub.value].(posted := Some(r.value))]);
      }
    }

    method PostSubscription(sub: nat, today: Date) returns (r: Result<nat, Error>)
      requires Wf(db)
      modifies this
      ensures Follows(Ledger.PostSubscription(old(db), sub, today), r, db)
    {
      hide Wf, Ledger.CreateActual, Ledger.PayOccurrence, LatestOf, DueOccurrence;
      if sub !in db.subs {
        return Err(SubscriptionNotFound);
      }
      var row := db.subs[sub];
      if !row.active {
        return Err(SubscriptionInactive);
      }
      var period := ActivePeriod(db);
      if period.Some? {
        var due := DueOccurrence(db, period.value, sub);
        if due.Some? {
          r := PayOccurrence(due.value, today, None, today);
          return;
        }
        if OccurrencesOf(db, period.value, sub) != {} {
          return Err(SubscriptionAlreadyPosted);
        }
      }
      if row.posted.Some? {
        return Err(SubscriptionAlreadyPosted);
      }
      if row.account.None? {
        return Err(SubscriptionWithoutAccount);
      }
      r := CreateActual(DirectPayment(row, today), today);
      if r.Ok? {
        db := db.(subs := db.subs[sub := row.(posted := Some(r.value))]);
      }
    }

    method UnpostSubscription(sub: nat) returns (raised: Option<Error>)
      requires Wf(db)
      modifies this
      ensures Raises(Ledger.UnpostSubscription(old(db), sub), raised, db)
    {
      hide Wf, Ledger.DeleteActual;
      if sub !in db.subs {
        return Some(SubscriptionNotFound);
      }
      var row := db.subs[sub];
      if row.posted.None? {
        return Some(SubscriptionNotPosted);
      }
      LinkSubKeepsWf(db, sub, row.(posted := None), None);
      db := db.(subs := db.subs[sub := row.(posted := None)]);
      raised := DeleteActual(row.posted.value);
    }

    method SkipOccurrence(id: nat) returns (raised: Option<Error>)
      modifies this
      ensures Raises(Ledger.SkipOccurrence(old(db), id), raised, db)
    {
      raised := CheckOccurrence(db, id);
      if raised.None? {
        db := db.(planned := db.planned - {id});
      }
    }

    method PostponeOccurrence(id: nat, date: Date) returns (raised: Option<Error>)
      modifies this
      ensures Raises(Ledger.PostponeOccurrence(old(db), id, date), raised, db)
    {
      hide Within;
      raised := CheckOccurrence(db, id);
      if raised.Some? {
        return;
      }
      var row := db.planned[id];
      if row.period !in db.periods || !Within(db.periods[row.period].start, date, db.periods[row.period].end) {
        return Some(PostponeOutOfPeriod);
      }
      db := db.(planned := db.planned[id := row.(date := Some(date))]);
    }

    // A taken charge date rolls the savepoint back and leaves the cursor alone.
    method AddToPeriod(sub: nat, period: nat, advance: bool) returns (id: Option<nat>)
      requires sub in db.subs && db.subs[sub].category in db.categories
      modifies this
      ensures (db, id) == Ledger.AddToPeriod(old(db), sub, period, advance)
    {
      hide ChargeDateTaken, AdvanceDate;
      var row := db.subs[sub];
      if ChargeDateTaken(db, sub, row.nextCharge) || period !in db.periods {
        return None;
      }
      id := Some(db.nextPlanned);
      db := db.(planned := db.planned[db.nextPlanned := OccurrenceRow(db, sub, period)],
          nextPlanned := db.nextPlanned + 1);
      if advance {
        var next := AdvanceDate(row.nextCharge, row.interval, row.dayOfMonth);
        db := db.(subs := db.subs[sub := row.(nextCharge := next)]);
      }
    }

    method Materialise(sub: nat, period: nat) returns (raised: Option<Error>)
      modifies this
      ensures Raises(Ledger.Materialise(old(db), sub, period), raised, db)
    {
      hide Ledger.AddToPeriod;
      if sub !in db.subs {
        return Some(SubscriptionNotFound);
      }
      if db.subs[sub].category !in db.categories {
        return Some(IntegrityError);
      }
      var _ := AddToPeriod(sub, period, true);
      return None;
    }

    method ChargeSubscription(sub: nat, today: Date) returns (r: Result<(nat, Date), Error>)
      modifies this
      ensures Follows(Ledger.ChargeSubscription(old(db), sub, today), r, db)
    {
      hide Ledger.ResolvePeriod, ChargeDateTaken, OccurrenceRow, AdvanceDate;
      if sub !in db.subs {
        return Err(SubscriptionNotFound);
      }
      if db.subs[sub].category !in db.categories {
        return Err(IntegrityError);
      }
      var original := db.subs[sub].nextCharge;
      var period := ResolvePeriod(original, today);
      ResolveFrame(old(db), original, today);
      if period.None? {
        return Err(AlreadyCharged);
      }
      var id := AddToPeriod(sub, period.value, true);
      if id.None? {
        return Err(AlreadyCharged);
      }
      return Ok((id.value, db.subs[sub].nextCharge));
    }

    // ---- Plans ----

    // The expense plans and their sum; an income category takes no plan but 0.
    method CollectExpense(plans: seq<(nat, int)>) returns (r: Result<(seq<(nat, int)>, int), Error>)
      requires forall j | 0 <= j < |plans| :: plans[j].0 in db.categories
      ensures r == if LimitsIncome(db, plans) then Err(IncomeLimitForbidden)
                   else Ok((ExpensePlans(db, plans), PlanSum(ExpensePlans(db, plans))))
      ensures r.Ok? ==> forall j | 0 <= j < |r.value.0| :: r.value.0[j].0 in db.categories
    {
      hide ExpensePlans, PlanSum;
      var expense: seq<(nat, int)> := [];
      var sum := 0;
      NoExpense(db, plans);
      for k := 0 to |plans|
        invariant expense == ExpensePlans(db, plans[..k]) && sum == PlanSum(expense)
        invariant forall j | 0 <= j < |expense| :: expense[j].0 in db.categories
        invariant forall j | 0 <= j < k && db.categories[plans[j].0].kind.Income? :: plans[j].1 == 0
      {
        OneExpenseMore(db, plans, k);
        if db.categories[plans[k].0].kind.Income? {
          if plans[k].1 != 0 {
            return Err(IncomeLimitForbidden);
          }
        } else {
          expense, sum := expense + [plans[k]], sum + plans[k].1;
        }
      }
      assert plans[..|plans|] == plans;
      return Ok((expense, sum));
    }

    // Category.plan_cents, then the existing limit rows of the active period.
    method SetPlans(expense: seq<(nat, int)>)
      requires forall j | 0 <= j < |expense| :: expense[j].0 in db.categories
      modifies this
      ensures db == old(db).(categories := WithPlans(old(db).categories, expense),
                             limits := WithLimits(old(db).limits, ActivePeriod(old(db)), expense))
    {
      hide WithPlans, WithLimits, LatestOf;
      ghost var start := db;
      NoPlans(db.categories, db.limits, ActivePeriod(db));
      assert expense[..0] == [];
      for k := 0 to |expense|
        invariant db == start.(categories := WithPlans(start.categories, expense[..k]))
        invariant db.categories.Keys == start.categories.Keys
      {
        OnePlanMore(start.categories, expense, k);
        db := db.(categories := db.categories[expense[k].0 := db.categories[expense[k].0].(plan := expense[k].1)]);
      }
      ghost var planned := db;
      var period := ActivePeriod(db);
      if period.Some? {
        for k := 0 to |expense|
          invariant db == planned.(limits := WithLimits(start.limits, period, expense[..k]))
        {
          OneLimitMore(start.limits, period.value, expense, k);
          var key := (period.value, expense[k].0);
          if key in db.limits {
            db := db.(limits := db.limits[key := expense[k].1]);
          }
        }
      } else {
        NoActiveNoLimits(start.limits, expense);
      }
      assert expense[..|expense|] == expense;
    }

    method UpdatePlanMonth(plans: seq<(nat, int)>) returns (raised: Option<Error>)
      modifies this
      ensures Raises(Plans.UpdatePlanMonth(old(db), plans), raised, db)
      ensures raised.Some? ==> db == old(db)
    {
      hide WithPlans, WithLimits, LatestOf, ExpensePlans, PlanSum, LimitsIncome;
      for k := 0 to |plans|
        invariant db == old(db)
        invariant forall j | 0 <= j < k :: plans[j].0 in db.categories
      {
        if plans[k].0 !in db.categories {
          return Some(CategoryNotInTenant);
        }
      }
      var collected := CollectExpense(plans);
      if collected.Err? {
        return Some(collected.error);
      }
      var (expense, sum) := collected.value;
      if db.income.Some? && sum > db.income.value {
        return Some(PlanOverflow);
      }
      SetPlans(expense);
      return None;
    }

    // The template's limits become the period's, and the categories' plans.
    method CopyItems(period: nat)
      modifies this
      ensures db == Copied(old(db), period, {})
    {
      hide Copied;
      ghost var start := db;
      var items := db.templateItems;
      var left := items.Keys;
      NothingCopied(start, period);
      while left != {}
        invariant left <= items.Keys && db == Copied(start, period, left)
        decreases |left|
      {
        var c :| c in left;
        OneItemMore(start, period, left, c);
        db := db.(limits := db.limits[(period, c) := items[c]]);
        if c in db.categories && !db.categories[c].kind.Income? {
          db := db.(categories := db.categories[c := db.categories[c].(plan := items[c])]);
        }
        left := left - {c};
      }
    }

    method CopyLines(period: nat)
      requires period in db.periods
      modifies this
      ensures db == old(db).(
                planned := WithLines(old(db).planned, old(db).templateLines, old(db).nextPlanned, period,
                    old(db).periods[period]),
                nextPlanned := old(db).nextPlanned + |old(db).templateLines|)
    {
      hide LineRow, WithLines;
      ghost var start := db;
      var lines := db.templateLines;
      NoLines(db.planned, lines, db.nextPlanned, period, db.periods[period]);
      for k := 0 to |lines|
        invariant db == start.(
                    planned := WithLines(start.planned, lines[..k], start.nextPlanned, period, start.periods[period]),
                    nextPlanned := start.nextPlanned + k)
      {
        OneLineMore(start.planned, lines, k, start.nextPlanned, period, start.periods[period]);
        db := db.(planned := db.planned[db.nextPlanned := LineRow(lines[k], period, db.periods[period])],
                  nextPlanned := db.nextPlanned + 1);
      }
      assert lines[..|lines|] == lines;
    }

    method ApplyTemplate(period: nat) returns (r: Result<nat, Error>)
      modifies this
      ensures Follows(Plans.ApplyTemplate(old(db), period), r, db)
    {
      if period !in db.periods {
        return Err(PeriodNotFound);
      }
      if HasLimits(db, period) {
        return Ok(0);
      }
      hide HasLimits, WithLines, TemplateLimits, SyncedPlans;
      CopyItems(period);
      AllCopied(old(db), period);
      CopyLines(period);
      return Ok(|db.templateLines|);
    }

    // ---- Onboarding ----

    method ValidateAccounts(given: seq<FirstAccount>) returns (chosen: Option<nat>)
      ensures chosen.None? <==> !AccountsAccepted(given)
      ensures chosen.Some? ==> chosen.value == ChosenPrimary(given)
    {
      if |given| == 0 {
        return None;
      }
      var explicit: Option<nat> := None;
      for k := 0 to |given|
        invariant forall j | 0 <= j < k :: 1 <= |given[j].bank| <= 40
        invariant explicit.None? ==> forall j | 0 <= j < k :: !given[j].primary
        invariant explicit.Some? ==> explicit.value < k && given[explicit.value].primary
        invariant explicit.Some? ==> forall j | 0 <= j < k && j != explicit.value :: !given[j].primary
      {
        if !(1 <= |given[k].bank| <= 40) {
          return None;
        }
        if given[k].primary {
          if explicit.Some? {
            return None;
          }
          explicit := Some(k);
        }
      }
      ChosenIsTheFlagged(given);
      return Some(if explicit.Some? then explicit.value else 0);
    }

    method InsertAccounts(given: seq<FirstAccount>, chosen: nat) returns (r: Result<int, Error>)
      modifies this
      ensures r.Err? <==> exists j | 0 <= j < |given| :: !InRange(given[j].balance)
      ensures r.Err? ==> r.error == IntegrityError
      ensures r.Ok? ==> r.value == TotalOf(given, |given|)
      ensures r.Ok? ==>
                db == old(db).(
                  accounts := WithAccounts(old(db).accounts, old(db).nextAccount, given, chosen, |given|),
                  nextAccount := old(db).nextAccount + |given|)
    {
      hide InRange;
      var starting := 0;
      for k := 0 to |given|
        invariant starting == TotalOf(given, k)
        invariant db == old(db).(accounts := WithAccounts(old(db).accounts, old(db).nextAccount, given, chosen, k),
                                 nextAccount := old(db).nextAccount + k)
        invariant forall j | 0 <= j < k :: InRange(given[j].balance)
      {
        starting := starting + given[k].balance;
        if !InRange(given[k].balance) {
          return Err(IntegrityError);
        }
        db := db.(accounts := db.accounts[db.nextAccount := Account(given[k].balance, k == chosen)],
                  nextAccount := db.nextAccount + 1);
      }
      return Ok(starting);
    }

    // Refresh the category of seed k, or insert it; the flush checks the indexes.
    method UpsertCategory(plans: map<string, int>, k: nat) returns (raised: Option<Error>)
      requires k < SEED_COUNT
      modifies this
      ensures Raises(SeedCategory(old(db), plans, k), raised, db)
    {
      hide FirstWithCode, SeedCode, SeedName, SeedPlan, LiveClash;
      var id, row := db.nextCategory, Category(SeedName(k), Expense, false, SeedCode(k), SeedPlan(plans, k));
      var found := FirstWithCode(db.categories, SeedCode(k), db.nextCategory);
      if found.Some? {
        id, row := found.value, db.categories[found.value].(plan := SeedPlan(plans, k), archived := false);
        if SeedCode(k).Adjustment? {
          row := row.(name := ADJUSTMENT_NAME, kind := Expense);
        }
      }
      if LiveClash(db.categories, id, row) {
        return Some(IntegrityError);
      }
      db := db.(categories := db.categories[id := row],
                nextCategory := if found.Some? then db.nextCategory else db.nextCategory + 1);
      return None;
    }

    method SeedCategories(plans: map<string, int>) returns (raised: Option<Error>)
      modifies this
      ensures Raises(Seeded(old(db), plans, SEED_COUNT), raised, db)
    {
      hide SeedCategory;
      ghost var start := db;
      for k := 0 to |SEED_CODES|
        invariant Seeded(start, plans, k) == Ok(db)
      {
        raised := UpsertCategory(plans, k);
        if raised.Some? {
          RefusalStays(start, plans, k + 1, SEED_COUNT);
          return;
        }
      }
      raised := UpsertCategory(plans, |SEED_CODES|);
    }

    method EnsurePeriod(starting: int, today: Date) returns (raised: Option<Error>)
      modifies this
      ensures Raises(Onboarding.EnsurePeriod(old(db), starting, today), raised, db)
    {
      hide LatestOf, Ledger.CreateFirstPeriod;
      if ActivePeriod(db).None? {
        var first := CreateFirstPeriod(starting, today);
        if first.Err? {
          return Some(first.error);
        }
      }
      return None;
    }

    method CompleteOnboarding(consent: bool, newIncome: int, plans: map<string, int>, given: seq<FirstAccount>,
        today: Date)
      returns (raised: Option<Error>)
      modifies this
      ensures Raises(Onboarding.CompleteOnboarding(old(db), consent, newIncome, plans, given, today), raised, db)
    {
      hide AccountsAccepted, PlansOk, SeedSum, Seeded, WithAccounts, TotalOf, ChosenPrimary, Onboarding.EnsurePeriod,
          InRange;
      if !consent {
        return Some(ConsentRequired);
      }
      if !IncomeOk(newIncome) {
        return Some(BadIncome);
      }
      if !PlansOk(plans, newIncome) {
        return Some(BadPlans);
      }
      if SeedSum(plans, |SEED_CODES|) > newIncome {
        return Some(PlanExceedsIncome);
      }
      var chosen := ValidateAccounts(given);
      if chosen.None? {
        return Some(BadAccounts);
      }
      if |db.accounts| > 0 {
        return Some(OnboardingConflict);
      }
      db := db.(income := Some(newIncome));
      var starting := InsertAccounts(given, chosen.value);
      if starting.Err? {
        return Some(starting.error);
      }
      raised := SeedCategories(plans);
      if raised.Some? {
        return;
      }
      raised := EnsurePeriod(starting.value, today);
    }

    // ---- Migration 0038 ----

    method Repair() returns (raised: Option<Error>)
      modifies this
      ensures Raises(Balances.Repair(old(db)), raised, db)
    {
      hide FirstPrimary, RepairTarget, Wallet;
      var primary := PrimaryAccount(db);
      if primary.None? {
        return None;
      }
      var row := db.accounts[primary.value];
      var balance := RepairTarget(db) - (Wallet(db) - row.balance);
      if !InRange(balance) {
        return Some(IntegrityError);
      }
      db := db.(accounts := db.accounts[primary.value := row.(balance := balance)]);
      return None;
    }

    // ---- Transactions ----

    method Dispatch(c: Call, today: Date) returns (raised: Option<Error>)
      requires Wf(db)
      modifies this
      ensures Raises(Step(old(db), c, today), raised, db)
    {
      hide Wf, Ledger.CreateActual, Ledger.UpdateActual, Ledger.DeleteActual, Balances.Reconcile, Ledger.PostPlanned,
        Ledger.UnpostPlanned, PostBatch, Ledger.PayOccurrence, Ledger.PostSubscription, Ledger.UnpostSubscription,
        Ledger.SkipOccurrence, Ledger.PostponeOccurrence, Ledger.ChargeSubscription, Ledger.Materialise,
        Plans.UpdatePlanMonth, Plans.ApplyTemplate, Ledger.CreateAccount, Ledger.UpdateAccount, Ledger.DeleteAccount;
      match c {
        case Create(kind, amount, category, date, account) =>
          var r := CreateActual(NewActual(kind, amount, category, date, account, None), today);
          raised := Raised(r);
        case Update(id, patch) => raised := UpdateActual(id, patch, today);
        case Delete(id) => raised := DeleteActual(id);
        case ReconcileTo(target) =>
          var r := Reconcile(target, today);
          raised := Raised(r);
        case Post(id, date) =>
          var r := PostPlanned(id, date, today);
          raised := Raised(r);
        case Unpost(id) => raised := UnpostPlanned(id);
        case PostAll(ids, date) =>
          var r := PostPlannedBatch(ids, date, today);
          raised := Raised(r);
        case Pay(id, date, amount) =>
          var r := PayOccurrence(id, date, amount, today);
          raised := Raised(r);
        case PostSub(sub) =>
          var r := PostSubscription(sub, today);
          raised := Raised(r);
        case UnpostSub(sub) => raised := UnpostSubscription(sub);
        case Skip(id) => raised := SkipOccurrence(id);
        case Postpone(id, date) => raised := PostponeOccurrence(id, date);
        case Charge(sub) =>
          var r := ChargeSubscription(sub, today);
          raised := Raised(r);
        case AddTo(sub, period) => raised := Materialise(sub, period);
        case PlanMonth(plans) => raised := UpdatePlanMonth(plans);
        case UseTemplate(period) =>
          var r := ApplyTemplate(period);
          raised := Raised(r);
        case OpenAccount(balance, primary) =>
          var r := CreateAccount(balance, primary);
          raised := Raised(r);
        case EditAccount(id, primary, balance) => raised := UpdateAccount(id, primary, balance);
        case CloseAccount(id) => raised := DeleteAccount(id);
      }
    }

    // One request: the call in a transaction of its own, committed when it
    // returns and rolled back when it raises.
    method Serve(c: Call, today: Date)
      requires Wf(db)
      modifies this
      ensures db == Commit(old(db), c, today)
    {
      hide *;
      var start := db;
      var raised := Dispatch(c, today);
      RaisedMeansErr(Step(start, c, today), raised, db);
      if raised.Some? {
        db := start;
      }
      CommitMeans(start, c, today, raised, db);
    }

    // Whatever requests come and whichever of them fail, every cached balance
    // stays its opening balance plus the fold over its live rows.
    method ServeAll(calls: seq<(Call, Date)>, ghost o: map<nat, int>)
      requires Ledgered(db, o)
      modifies this
      ensures db == Run(old(db), calls) && Ledgered(db, OpeningsAlong(o, old(db), calls))
    {
      hide *;
      EmptyRun(db, calls);
      for k := 0 to |calls|
        invariant db == Run(old(db), calls[..k])
      {
        RunKeepsLedger(old(db), o, calls[..k]);
        LedgeredIsWf(db, OpeningsAlong(o, old(db), calls[..k]));
        RunGrows(old(db), calls, k);
        Serve(calls[k].0, calls[k].1);
      }
      assert calls[..|calls|] == calls;
      RunKeepsLedger(old(db), o, calls);
    }
  }
}
