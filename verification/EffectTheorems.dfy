// What paying, posting and patching leave behind, told without their bodies
// (app/services/subscriptions.py, app/services/actual.py).
module EffectTheorems {
  import opened Wrappers
  import opened Calendar
  import opened Database
  import opened Ledger
  import opened LedgerTheorems
  import opened PeriodTheorems

  // Only this account changed, and by this much.
  predicate OneMoved(before: map<nat, Account>, after: map<nat, Account>, account: Option<nat>, delta: int) {
    && after.Keys == before.Keys
    && forall a | a in before ::
         after[a] == before[a].(balance := before[a].balance + (if account == Some(a) then delta else 0))
  }

  // One new row under the next id, the others as they were.
  predicate OneAdded(before: Db, after: Db, txn: nat) {
    && txn == before.nextActual && after.nextActual == txn + 1
    && txn in after.actuals && after.actuals == before.actuals[txn := after.actuals[txn]]
  }

  lemma CreatedEffect(before: Db, after: Db, tx: NewActual, txn: nat)
    requires Created(before, after, tx, txn)
    ensures OneAdded(before, after, txn)
    ensures OneMoved(before.accounts, after.accounts, tx.account, SignedDelta(tx.kind, tx.amount))
    ensures after.planned == before.planned && after.subs == before.subs
    ensures var row := after.actuals[txn];
            row == Actual(row.period, tx.kind, tx.amount, tx.category, tx.date, tx.account, tx.parent)
  {
    hide SignedDelta;
  }

  // ---- Paying an occurrence ----

  // The subscription's account, else the primary one.
  predicate PaidFrom(db: Db, row: Planned, account: Option<nat>) {
    if row.sub.Some? && row.sub.value in db.subs && db.subs[row.sub.value].account.Some?
    then account == db.subs[row.sub.value].account
    else account == PrimaryAccount(db)
  }

  // The mirror link of the parent subscription, and of no other.
  predicate Mirrored(before: map<nat, Subscription>, after: map<nat, Subscription>, sub: Option<nat>, txn: nat) {
    && after.Keys == before.Keys
    && forall s | s in before ::
         after[s] == if sub == Some(s) then before[s].(posted := Some(txn)) else before[s]
  }

  predicate Paid(before: Db, after: Db, id: nat, txn: nat, date: Date, base: int)
    requires id in before.planned
  {
    var row := before.planned[id];
    && row.source.SubscriptionAuto? && row.posted.None?
    && OneAdded(before, after, txn)
    && after.actuals[txn].kind == row.kind && Abs(after.actuals[txn].amount) == Abs(base)
    && after.actuals[txn].category == row.category && after.actuals[txn].date == date
    && PaidFrom(before, row, after.actuals[txn].account)
    && OneMoved(before.accounts, after.accounts, after.actuals[txn].account, SignedDelta(row.kind, base))
    && after.planned == before.planned[id := row.(posted := Some(txn))]
    && Mirrored(before.subs, after.subs, row.sub, txn)
  }

  lemma StoredSize(kind: Kind, amount: int)
    ensures Abs(SignedForStorage(kind, amount)) == Abs(amount)
    ensures SignedDelta(kind, SignedForStorage(kind, amount)) == SignedDelta(kind, amount)
  {
  }

  lemma PayOccurrenceParts(db: Db, id: nat, date: Date, amount: Option<int>, today: Date)
    requires PayOccurrence(db, id, date, amount, today).Ok?
    ensures id in db.planned && db.planned[id].source.SubscriptionAuto? && db.planned[id].posted.None?
    ensures var row := db.planned[id];
            var made := CreateActual(db, PaymentFor(db, row, date, amount), today);
            made.Ok? &&
            var (after, txn) := PayOccurrence(db, id, date, amount, today).value;
            txn == made.value.1
            && after == made.value.0.(planned := made.value.0.planned[id := row.(posted := Some(txn))],
                                      subs := after.subs)
            && after.subs == (if PayingSub(db, row).None? then made.value.0.subs
                              else made.value.0.subs[PayingSub(db, row).value
                                     := db.subs[PayingSub(db, row).value].(posted := Some(txn))])
  {
    hide CreateActual, PaymentFor;
  }

  lemma PaymentFacts(db: Db, row: Planned, date: Date, amount: Option<int>)
    ensures var tx, base := PaymentFor(db, row, date, amount), if amount.Some? then amount.value else row.amount;
            && tx.kind == row.kind && Abs(tx.amount) == Abs(base) && tx.category == row.category && tx.date == date
            && SignedDelta(tx.kind, tx.amount) == SignedDelta(row.kind, base) && PaidFrom(db, row, tx.account)
  {
    StoredSize(row.kind, if amount.Some? then amount.value else row.amount);
    hide SignedDelta, SignedForStorage, Abs, PrimaryAccount;
  }

  lemma MirrorOne(db: Db, row: Planned, txn: nat)
    ensures var sub := PayingSub(db, row);
            var after := if sub.None? then db.subs
                         else db.subs[sub.value := db.subs[sub.value].(posted := Some(txn))];
            Mirrored(db.subs, after, row.sub, txn)
  {
  }

  // Paying posts exactly this occurrence: the amount given or planned, from the
  // right account, with the occurrence and its subscription linked.
  lemma PayEffect(db: Db, id: nat, date: Date, amount: Option<int>, today: Date)
    requires Wf(db) && PayOccurrence(db, id, date, amount, today).Ok?
    ensures id in db.planned
    ensures var (after, txn) := PayOccurrence(db, id, date, amount, today).value;
            Paid(db, after, id, txn, date, if amount.Some? then amount.value else db.planned[id].amount)
  {
    hide Wf, CreateActual, PayOccurrence, SignedDelta, Abs, OneMoved, Created, PaymentFor, PaidFrom, PayingSub,
      Mirrored;
    PayOccurrenceParts(db, id, date, amount, today);
    var row := db.planned[id];
    var tx := PaymentFor(db, row, date, amount);
    var (made, txn) := CreateActual(db, tx, today).value;
    CreateActualEffect(db, tx, today);
    CreatedEffect(db, made, tx, txn);
    PaymentFacts(db, row, date, amount);
    MirrorOne(db, row, txn);
  }

  // ---- Posting a subscription ----

  // With occurrences in the active period: an earliest unposted one is paid
  // today in full, and when none is left the call is refused.
  lemma PostSubscriptionPaysTheEarliest(db: Db, sub: nat, today: Date)
    requires Wf(db) && sub in db.subs && db.subs[sub].active && ActivePeriod(db).Some?
    requires OccurrencesOf(db, ActivePeriod(db).value, sub) != {}
    ensures var unposted := UnpostedOf(db, ActivePeriod(db).value, sub);
            var due := DueOccurrence(db, ActivePeriod(db).value, sub);
            && (due.None? <==> unposted == {})
            && (due.Some? ==>
                  && due.value in unposted
                  && (forall o | o in unposted :: !Earlier(db.planned[o].date, db.planned[due.value].date))
                  && PostSubscription(db, sub, today) == PayOccurrence(db, due.value, today, None, today))
            && (due.None? ==> PostSubscription(db, sub, today) == Err(SubscriptionAlreadyPosted))
  {
    var unposted := UnpostedOf(db, ActivePeriod(db).value, sub);
    assert forall o | o in unposted :: o < db.nextPlanned;
    hide Wf, ActivePeriod, PayOccurrence, PostWithoutOccurrence, Earlier, OccurrencesOf;
  }

  // ---- Patching a row ----

  predicate Kept<T(==)>(patch: Option<T>, before: T, after: T) { after == if patch.Some? then patch.value else before }

  // The patched fields are the given ones, the rest as before; the account and
  // the parent never change.
  predicate PatchedTo(before: Actual, after: Actual, patch: Patch) {
    && Kept(patch.kind, before.kind, after.kind) && Kept(patch.amount, before.amount, after.amount)
    && Kept(patch.category, before.category, after.category) && Kept(patch.date, before.date, after.date)
    && after.account == before.account && after.parent == before.parent
  }

  lemma SettleEffect(db: Db, id: nat, next: Actual)
    requires id in db.actuals && Settle(db, id, next).Ok?
    ensures var after := Settle(db, id, next).value;
            && after == db.(accounts := after.accounts, actuals := db.actuals[id := next])
            && OneMoved(db.accounts, after.accounts, db.actuals[id].account,
                        SignedDelta(next.kind, next.amount) - SignedDelta(db.actuals[id].kind, db.actuals[id].amount))
  {
    hide SignedDelta, InRange;
  }

  lemma UpdateActualParts(db: Db, id: nat, patch: Patch, today: Date)
    requires UpdateActual(db, id, patch, today).Ok?
    ensures id in db.actuals
    ensures var (resolved, period) := PatchPeriod(db, db.actuals[id], patch, today);
            && period.Some? && id in resolved.actuals
            && UpdateActual(db, id, patch, today) == Settle(resolved, id, Patched(db.actuals[id], patch, period.value))
  {
    if MovesDate(db.actuals[id], patch) {
      ResolveFrame(db, patch.date.value, today);
    }
    hide CheckPatch, TooFarAhead, Settle, Patched, ResolvePeriod;
  }

  lemma PatchedFacts(row: Actual, patch: Patch, period: nat)
    ensures var next := Patched(row, patch, period);
            && PatchedTo(row, next, patch) && next.period == period
            && (MovesDate(row, patch) <==> next.date != row.date)
            && (MovesDate(row, patch) ==> patch.date == Some(next.date))
  {
  }

  lemma PatchPeriodCovers(db: Db, row: Actual, patch: Patch, today: Date)
    requires Wf(db)
    ensures var (resolved, period) := PatchPeriod(db, row, patch, today);
            && resolved.actuals == db.actuals && resolved.accounts == db.accounts
            && (if MovesDate(row, patch)
                then period.Some? ==>
                       period.value in resolved.periods && Covers(resolved.periods[period.value], patch.date.value)
                else period == Some(row.period))
  {
    if MovesDate(row, patch) {
      ResolveContains(db, patch.date.value, today);
      ResolveFrame(db, patch.date.value, today);
    }
    hide Wf, ResolvePeriod, Covers;
  }

  // A patch changes one row, moves its account by the change of the signed
  // amount, and moves the row to the period of its new date only when the date
  // changed.
  lemma UpdateActualEffect(db: Db, id: nat, patch: Patch, today: Date)
    requires Wf(db) && UpdateActual(db, id, patch, today).Ok?
    ensures var after := UpdateActual(db, id, patch, today).value;
            && id in db.actuals && id in after.actuals && after.actuals == db.actuals[id := after.actuals[id]]
            && PatchedTo(db.actuals[id], after.actuals[id], patch)
            && OneMoved(db.accounts, after.accounts, db.actuals[id].account,
                        SignedDelta(after.actuals[id].kind, after.actuals[id].amount)
                        - SignedDelta(db.actuals[id].kind, db.actuals[id].amount))
            && (if after.actuals[id].date == db.actuals[id].date then after.actuals[id].period == db.actuals[id].period
                else after.actuals[id].period in after.periods
                     && Covers(after.periods[after.actuals[id].period], after.actuals[id].date))
  {
    hide *;
    UpdateActualParts(db, id, patch, today);
    var row := db.actuals[id];
    var (resolved, period) := PatchPeriod(db, row, patch, today);
    PatchPeriodCovers(db, row, patch, today);
    SettleEffect(resolved, id, Patched(row, patch, period.value));
    PatchedFacts(row, patch, period.value);
  }
}
