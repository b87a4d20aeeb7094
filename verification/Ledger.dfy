// What one successful service call makes of the database, and which exception
// it raises otherwise (app/services/actual.py, planned.py, subscriptions.py,
// accounts.py).
module Ledger {
  import opened Wrappers
  import opened Calendar
  import opened PeriodEngine
  import opened Recurrence
  import opened Sums
  import opened Database

  type Outcome<T> = Result<(Db, T), Error>

  // ---- Accounts ----

  function ApplyDelta(db: Db, account: nat, delta: int): Result<Db, Error> {
    if account !in db.accounts then Err(AccountNotFound)
    else
      var balance := db.accounts[account].balance + delta;
      if !InRange(balance) then Err(IntegrityError)
      else Ok(db.(accounts := db.accounts[account := db.accounts[account].(balance := balance)]))
  }

  function Demote(accounts: map<nat, Account>): map<nat, Account> {
    map a | a in accounts :: accounts[a].(primary := false)
  }

  function CreateAccount(db: Db, balance: int, primary: bool): Outcome<nat> {
    if !InRange(balance) then Err(IntegrityError)
    else
      var first := primary || |db.accounts| == 0;
      var others := if first then Demote(db.accounts) else db.accounts;
      Ok((db.(accounts := others[db.nextAccount := Account(balance, first)], nextAccount := db.nextAccount + 1),
          db.nextAccount))
  }

  function UpdateAccount(db: Db, account: nat, primary: Option<bool>, balance: Option<int>): Result<Db, Error> {
    if account !in db.accounts then Err(AccountNotFound)
    else
      var row := db.accounts[account];
      if primary == Some(false) && row.primary && |db.accounts| > 1 then Err(SolePrimary)
      else if balance.Some? && !InRange(balance.value) then Err(IntegrityError)
      else
        var others := if primary == Some(true) && !row.primary then Demote(db.accounts) else db.accounts;
        var mine := if primary.Some? then row.(primary := primary.value) else row;
        Ok(db.(accounts := others[account := if balance.Some? then mine.(balance := balance.value) else mine]))
  }

  predicate Referenced(db: Db, account: nat) {
    || (exists s | s in db.subs :: db.subs[s].account == Some(account))
    || (exists i | i in db.actuals :: db.actuals[i].account == Some(account))
  }

  function DeleteAccount(db: Db, account: nat): Result<Db, Error> {
    if account !in db.accounts then Err(AccountNotFound)
    else if Referenced(db, account) then Err(AccountHasTxns)
    else if db.accounts[account].primary && exists b | b in db.accounts :: b != account then Err(SolePrimary)
    else Ok(db.(accounts := db.accounts - {account}))
  }

  // ---- Periods ----

  function NewPeriod(d: Date, cycleDay: CycleDay, starting: int, today: Date): Period {
    var bounds := PeriodFor(d, cycleDay).value;
    Period(bounds.start, bounds.end, starting, Within(bounds.start, today, bounds.end))
  }

  // uq_budget_period_user_id_period_start and uq_budget_period_one_active.
  predicate PeriodClashes(db: Db, row: Period) {
    exists p | p in db.periods :: db.periods[p].start == row.start || (db.periods[p].active && row.active)
  }

  function InsertPeriod(db: Db, row: Period): Db {
    db.(periods := db.periods[db.nextPeriod := row], nextPeriod := db.nextPeriod + 1)
  }

  // _resolve_period_for_date: look up the covering period or create it; None
  // when the insert clashes and the second look-up finds nothing either.
  function ResolvePeriod(db: Db, d: Date, today: Date): (Db, Option<nat>) {
    var found := PeriodCovering(db, d);
    var row := NewPeriod(d, db.cycleDay, 0, today);
    if found.Some? || PeriodClashes(db, row) then (db, found)
    else (InsertPeriod(db, row), Some(db.nextPeriod))
  }

  function CreateFirstPeriod(db: Db, starting: int, today: Date): Outcome<nat> {
    var row := NewPeriod(today, db.cycleDay, starting, today).(active := true);
    if PeriodClashes(db, row) then Err(IntegrityError)
    else Ok((InsertPeriod(db, row), db.nextPeriod))
  }

  // ---- Actual transactions ----

  datatype NewActual = NewActual(
    kind: Kind, amount: int, category: nat, date: Date, account: Option<nat>, parent: Option<nat>)

  // D-58: at most seven days ahead.
  predicate TooFarAhead(d: Date, today: Date) { Before(AddDays(today, 7), d) }

  function CheckNewActual(db: Db, tx: NewActual, today: Date): Option<Error> {
    if tx.category !in db.categories then Some(CategoryNotFound)
    else
      var cat := db.categories[tx.category];
      if cat.archived then Some(InvalidCategory)
      else if (tx.kind.Expense? || tx.kind.Income?) && cat.kind != tx.kind && cat.code.Ordinary? then Some(KindMismatch)
      else if TooFarAhead(tx.date, today) then Some(FutureDate)
      else None
  }

  // The INSERT itself: NOT NULL on period_id and the two foreign keys.
  function InsertActual(db: Db, tx: NewActual, period: Option<nat>): Outcome<nat> {
    if period.None? || (tx.account.Some? && tx.account.value !in db.accounts)
       || (tx.parent.Some? && tx.parent.value !in db.actuals) then Err(IntegrityError)
    else
      var row := Actual(period.value, tx.kind, tx.amount, tx.category, tx.date, tx.account, tx.parent);
      Ok((db.(actuals := db.actuals[db.nextActual := row], nextActual := db.nextActual + 1), db.nextActual))
  }

  function CreateActual(db: Db, tx: NewActual, today: Date): Outcome<nat> {
    var refused := CheckNewActual(db, tx, today);
    if refused.Some? then Err(refused.value)
    else
      var (resolved, period) := ResolvePeriod(db, tx.date, today);
      match InsertActual(resolved, tx, period)
      case Err(e) => Err(e)
      case Ok((inserted, id)) =>
        if tx.account.None? then Ok((inserted, id))
        else
          match ApplyDelta(inserted, tx.account.value, SignedDelta(tx.kind, tx.amount))
          case Err(e) => Err(e)
          case Ok(moved) => Ok((moved, id))
  }

  // PATCH /actual/{id}: only the fields that are set.
  datatype Patch = Patch(kind: Option<Kind>, amount: Option<int>, category: Option<nat>, date: Option<Date>)

  function CheckPatch(db: Db, row: Actual, patch: Patch): Option<Error> {
    var category := if patch.category.Some? then patch.category.value else row.category;
    var kind := if patch.kind.Some? then patch.kind.value else row.kind;
    if patch.category.None? && patch.kind.None? then None
    else if category !in db.categories then Some(CategoryNotFound)
    else if category != row.category && db.categories[category].archived then Some(InvalidCategory)
    else if db.categories[category].kind != kind then Some(KindMismatch)
    else None
  }

  function Patched(row: Actual, patch: Patch, period: nat): Actual {
    Actual(
      period,
      if patch.kind.Some? then patch.kind.value else row.kind,
      if patch.amount.Some? then patch.amount.value else row.amount,
      if patch.category.Some? then patch.category.value else row.category,
      if patch.date.Some? then patch.date.value else row.date,
      row.account, row.parent)
  }

  // Write the row and correct its account by what the patch changed.
  function Settle(db: Db, id: nat, next: Actual): Result<Db, Error>
    requires id in db.actuals
  {
    var row := db.actuals[id];
    var written := db.(actuals := db.actuals[id := next]);
    var change := SignedDelta(next.kind, next.amount) - SignedDelta(row.kind, row.amount);
    if row.account.None? || change == 0 then Ok(written) else ApplyDelta(written, row.account.value, change)
  }

  predicate MovesDate(row: Actual, patch: Patch) { patch.date.Some? && patch.date.value != row.date }

  // period_id is recomputed only when the date changes.
  function PatchPeriod(db: Db, row: Actual, patch: Patch, today: Date): (Db, Option<nat>) {
    if MovesDate(row, patch) then ResolvePeriod(db, patch.date.value, today) else (db, Some(row.period))
  }

  function UpdateActual(db: Db, id: nat, patch: Patch, today: Date): Result<Db, Error> {
    if id !in db.actuals then Err(ActualNotFound)
    else
      var row := db.actuals[id];
      var refused := CheckPatch(db, row, patch);
      if refused.Some? then Err(refused.value)
      else if MovesDate(row, patch) && TooFarAhead(patch.date.value, today) then Err(FutureDate)
      else
        var (resolved, period) := PatchPeriod(db, row, patch, today);
        if period.None? then Err(IntegrityError) else Settle(resolved, id, Patched(row, patch, period.value))
  }

  function Children(m: map<nat, Actual>, id: nat): set<nat> { set c | c in m && m[c].parent == Some(id) }

  // A parent is always the older row, so the chain upwards ends.
  predicate Descends(m: map<nat, Actual>, r: nat, root: nat) {
    r in m && m[r].parent.Some? && m[r].parent.value < r
    && (m[r].parent.value == root || Descends(m, m[r].parent.value, root))
  }

  // ON DELETE CASCADE on parent_txn_id.
  function Cascade(m: map<nat, Actual>, id: nat): set<nat> { set r | r in m && (r == id || Descends(m, r, id)) }

  // ON DELETE SET NULL on the two posted_txn_id columns.
  function Unlink(posted: Option<nat>, gone: set<nat>): Option<nat> {
    if posted.Some? && posted.value in gone then None else posted
  }

  function UnlinkPlanned(m: map<nat, Planned>, gone: set<nat>): map<nat, Planned> {
    map i | i in m :: m[i].(posted := Unlink(m[i].posted, gone))
  }

  function UnlinkSubs(m: map<nat, Subscription>, gone: set<nat>): map<nat, Subscription> {
    map s | s in m :: m[s].(posted := Unlink(m[s].posted, gone))
  }

  function EraseActuals(db: Db, gone: set<nat>): Db {
    db.(actuals := db.actuals - gone, planned := UnlinkPlanned(db.planned, gone), subs := UnlinkSubs(db.subs, gone))
  }

  // What the rows `ids` contributed to an account.
  function Contribution(db: Db, ids: set<nat>, account: nat): int {
    Sum(Only(ids, Share(db.actuals, account)), db.nextActual)
  }

  // The rows whose contribution delete_actual_v10 takes back.
  function Restored(m: map<nat, Actual>, id: nat): set<nat> { {id} + Children(m, id) }

  function BalancesWithout(db: Db, ids: set<nat>): map<nat, Account> {
    map a | a in db.accounts ::
      db.accounts[a].(balance := db.accounts[a].balance - Contribution(db, ids, a))
  }

  function DeleteActual(db: Db, id: nat): Result<Db, Error> {
    if id !in db.actuals then Err(ActualNotFound)
    else
      var accounts := BalancesWithout(db, Restored(db.actuals, id));
      if exists a | a in accounts :: !InRange(accounts[a].balance) then Err(IntegrityError)
      else Ok(EraseActuals(db, Cascade(db.actuals, id)).(accounts := accounts))
  }

  // ---- Planned rows ----

  function SignedForStorage(kind: Kind, amount: int): int { if kind.Income? then Abs(amount) else -Abs(amount) }

  function PostingOf(db: Db, row: Planned, date: Date): NewActual {
    NewActual(row.kind, SignedForStorage(row.kind, row.amount), row.category, date, PrimaryAccount(db), None)
  }

  // The savepoint turns any violation met while creating the row into
  // "already posted".
  function PostPlanned(db: Db, id: nat, date: Date, today: Date): Outcome<nat> {
    if id !in db.planned then Err(PlannedNotFound)
    else
      var row := db.planned[id];
      if row.source.SubscriptionAuto? then Err(PlannedReadOnly)
      else if row.posted.Some? then Err(PlannedAlreadyPosted)
      else
        match CreateActual(db, PostingOf(db, row, date), today)
        case Err(e) => Err(if e.IntegrityError? then PlannedAlreadyPosted else e)
        case Ok((made, txn)) => Ok((made.(planned := made.planned[id := row.(posted := Some(txn))]), txn))
  }

  function UnpostPlanned(db: Db, id: nat): Result<Db, Error> {
    if id !in db.planned then Err(PlannedNotFound)
    else if db.planned[id].posted.None? then Err(PlannedNotPosted)
    else
      var row := db.planned[id];
      DeleteActual(db.(planned := db.planned[id := row.(posted := None)]), row.posted.value)
  }

  // The date a batch line is posted on.
  function LineDate(db: Db, id: nat, date: Option<Date>, today: Date): Date {
    if date.Some? then date.value
    else if id in db.planned && db.planned[id].date.Some? then db.planned[id].date.value
    else today
  }

  // Errors a batch counts as "skipped".
  predicate Skippable(e: Error) { e.PlannedAlreadyPosted? || e.PlannedNotFound? || e.PlannedReadOnly? }

  // One result per position: the transaction posted there, or None if skipped.
  function PostBatch(db: Db, ids: seq<nat>, date: Option<Date>, today: Date): (r: Outcome<seq<Option<nat>>>)
    ensures r.Ok? ==> |r.value.1| == |ids|
  {
    if |ids| == 0 then Ok((db, []))
    else
      match PostBatch(db, ids[..|ids| - 1], date, today)
      case Err(e) => Err(e)
      case Ok((before, results)) =>
        var id := ids[|ids| - 1];
        match PostPlanned(before, id, LineDate(before, id, date, today), today)
        case Ok((after, txn)) => Ok((after, results + [Some(txn)]))
        case Err(e) => if Skippable(e) then Ok((before, results + [None])) else Err(e)
  }

  // ---- Recurring payments ----

  // The parent subscription of an occurrence.
  function PayingSub(db: Db, row: Planned): (s: Option<nat>)
    ensures s.Some? ==> s.value in db.subs
  {
    if row.sub.Some? && row.sub.value in db.subs then row.sub else None
  }

  // The account comes from the subscription, else it is the primary one.
  function PaymentFor(db: Db, row: Planned, date: Date, amount: Option<int>): NewActual {
    var sub := PayingSub(db, row);
    var account := if sub.Some? && db.subs[sub.value].account.Some? then db.subs[sub.value].account
                   else PrimaryAccount(db);
    var base := if amount.Some? then amount.value else row.amount;
    NewActual(row.kind, SignedForStorage(row.kind, base), row.category, date, account, None)
  }

  function PayOccurrence(db: Db, id: nat, date: Date, amount: Option<int>, today: Date): Outcome<nat> {
    if id !in db.planned || !db.planned[id].source.SubscriptionAuto? then Err(OccurrenceNotFound)
    else
      var row := db.planned[id];
      if row.posted.Some? then Err(OccurrenceAlreadyPaid)
      else
        match CreateActual(db, PaymentFor(db, row, date, amount), today)
        case Err(e) => Err(e)
        case Ok((made, txn)) =>
          var linked := made.(planned := made.planned[id := row.(posted := Some(txn))]);
          var sub := PayingSub(db, row);
          // The subscription's link is an informational mirror.
          Ok((if sub.None? then linked
              else linked.(subs := linked.subs[sub.value := db.subs[sub.value].(posted := Some(txn))]), txn))
  }

  function OccurrencesOf(db: Db, period: nat, sub: nat): set<nat> {
    set i | i in db.planned && db.planned[i].period == period && db.planned[i].sub == Some(sub)
            && db.planned[i].source.SubscriptionAuto?
  }

  // ORDER BY planned_date, id: NULLs come last.
  predicate Earlier(a: Option<Date>, b: Option<Date>) {
    a.Some? && (b.None? || Before(a.value, b.value))
  }

  function EarliestOf(m: map<nat, Planned>, ids: set<nat>, n: nat): (r: Option<nat>)
    requires ids <= m.Keys
    ensures r.None? <==> forall i | i in ids :: i >= n
    ensures r.Some? ==> r.value in ids && r.value < n
    ensures r.Some? ==> forall i | i in ids && i < n :: !Earlier(m[i].date, m[r.value].date)
  {
    if n == 0 then None
    else
      var best := EarliestOf(m, ids, n - 1);
      if n - 1 in ids && (best.None? || Earlier(m[n - 1].date, m[best.value].date)) then Some(n - 1) else best
  }

  function UnpostedOf(db: Db, period: nat, sub: nat): set<nat> {
    set i | i in OccurrencesOf(db, period, sub) && db.planned[i].posted.None?
  }

  // The occurrence post_subscription pays: the earliest unposted one.
  function DueOccurrence(db: Db, period: nat, sub: nat): (r: Option<nat>)
    ensures r.Some? ==> r.value in UnpostedOf(db, period, sub)
  {
    EarliestOf(db.planned, UnpostedOf(db, period, sub), db.nextPlanned)
  }

  // The legacy fallback books an expense whatever the category says.
  function DirectPayment(row: Subscription, today: Date): NewActual {
    NewActual(Expense, -Abs(row.amount), row.category, today, row.account, None)
  }

  function PostWithoutOccurrence(db: Db, sub: nat, today: Date): Outcome<nat>
    requires sub in db.subs
  {
    var row := db.subs[sub];
    if row.posted.Some? then Err(SubscriptionAlreadyPosted)
    else if row.account.None? then Err(SubscriptionWithoutAccount)
    else
      match CreateActual(db, DirectPayment(row, today), today)
      case Err(e) => Err(e)
      case Ok((made, txn)) => Ok((made.(subs := made.subs[sub := row.(posted := Some(txn))]), txn))
  }

  function PostSubscription(db: Db, sub: nat, today: Date): Outcome<nat> {
    if sub !in db.subs then Err(SubscriptionNotFound)
    else if !db.subs[sub].active then Err(SubscriptionInactive)
    else
      var period := ActivePeriod(db);
      if period.None? || OccurrencesOf(db, period.value, sub) == {} then PostWithoutOccurrence(db, sub, today)
      else
        var due := DueOccurrence(db, period.value, sub);
        if due.None? then Err(SubscriptionAlreadyPosted) else PayOccurrence(db, due.value, today, None, today)
  }

  function UnpostSubscription(db: Db, sub: nat): Result<Db, Error> {
    if sub !in db.subs then Err(SubscriptionNotFound)
    else if db.subs[sub].posted.None? then Err(SubscriptionNotPosted)
    else
      var row := db.subs[sub];
      DeleteActual(db.(subs := db.subs[sub := row.(posted := None)]), row.posted.value)
  }

  function CheckOccurrence(db: Db, id: nat): Option<Error> {
    if id !in db.planned || !db.planned[id].source.SubscriptionAuto? then Some(OccurrenceNotFound)
    else if db.planned[id].posted.Some? then Some(OccurrenceAlreadyPaid)
    else None
  }

  function SkipOccurrence(db: Db, id: nat): Result<Db, Error> {
    var refused := CheckOccurrence(db, id);
    if refused.Some? then Err(refused.value) else Ok(db.(planned := db.planned - {id}))
  }

  function PostponeOccurrence(db: Db, id: nat, date: Date): Result<Db, Error> {
    var refused := CheckOccurrence(db, id);
    if refused.Some? then Err(refused.value)
    else
      var row := db.planned[id];
      if row.period !in db.periods || !Within(db.periods[row.period].start, date, db.periods[row.period].end)
      then Err(PostponeOutOfPeriod)
      else Ok(db.(planned := db.planned[id := row.(date := Some(date))]))
  }

  // ---- Materialisation of occurrences ----

  predicate ChargeDateTaken(db: Db, sub: nat, d: Date) {
    exists i | i in db.planned :: db.planned[i].sub == Some(sub) && db.planned[i].chargeDate == Some(d)
  }

  function OccurrenceRow(db: Db, sub: nat, period: nat): Planned
    requires sub in db.subs && db.subs[sub].category in db.categories
  {
    var row := db.subs[sub];
    Planned(period, db.categories[row.category].kind, row.amount, row.category, Some(row.nextCharge),
            SubscriptionAuto, Some(sub), Some(row.nextCharge), None)
  }

  function AdvanceCursor(row: Subscription): Subscription {
    row.(nextCharge := AdvanceDate(row.nextCharge, row.interval, row.dayOfMonth))
  }

  // add_subscription_to_period: None is the conflict, which changes nothing.
  function AddToPeriod(db: Db, sub: nat, period: nat, advance: bool): (Db, Option<nat>)
    requires sub in db.subs && db.subs[sub].category in db.categories
  {
    var row := db.subs[sub];
    if ChargeDateTaken(db, sub, row.nextCharge) || period !in db.periods then (db, None)
    else
      var added := db.(planned := db.planned[db.nextPlanned := OccurrenceRow(db, sub, period)],
                       nextPlanned := db.nextPlanned + 1);
      (if advance then added.(subs := added.subs[sub := AdvanceCursor(row)]) else added, Some(db.nextPlanned))
  }

  // The callers hold the subscription and its category, and always advance.
  function Materialise(db: Db, sub: nat, period: nat): Result<Db, Error> {
    if sub !in db.subs then Err(SubscriptionNotFound)
    else if db.subs[sub].category !in db.categories then Err(IntegrityError)
    else Ok(AddToPeriod(db, sub, period, true).0)
  }

  function ChargeSubscription(db: Db, sub: nat, today: Date): Outcome<(nat, Date)> {
    if sub !in db.subs then Err(SubscriptionNotFound)
    else if db.subs[sub].category !in db.categories then Err(IntegrityError)
    else
      var (resolved, period) := ResolvePeriod(db, db.subs[sub].nextCharge, today);
      if period.None? then Err(AlreadyCharged)
      else
        match AddToPeriod(resolved, sub, period.value, true)
        case (_, None) => Err(AlreadyCharged)
        case (charged, Some(id)) => Ok((charged, (id, charged.subs[sub].nextCharge)))
  }
}
