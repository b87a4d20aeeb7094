// Posting planned rows and recurring payments into transactions, and taking
// them back (app/services/planned.py, app/services/subscriptions.py).
module PostingTheorems {
  import opened Wrappers
  import opened Calendar
  import opened Sums
  import opened Database
  import opened Ledger
  import opened LedgerTheorems

  // What every ledger step keeps.
  predicate Sound(before: Db, after: Db) {
    Wf(after) && Flat(after.actuals) && KeepsOpenings(before, after)
  }

  lemma KeepsOpeningsTo(before: Db, after: Db, same: Db)
    requires same.accounts == after.accounts && same.actuals == after.actuals && same.nextActual == after.nextActual
    requires KeepsOpenings(before, after)
    ensures KeepsOpenings(before, same)
  {
    assert forall a :: Fold(same, a) == Fold(after, a);
  }

  // ---- Each step keeps the ledger ----

  lemma CreateActualSound(db: Db, tx: NewActual, today: Date)
    requires Wf(db) && Flat(db.actuals) && tx.parent.None?
    ensures var r := CreateActual(db, tx, today);
            r.Ok? ==> Created(db, r.value.0, tx, r.value.1) && Sound(db, r.value.0)
  {
    hide CreateActual, Created, Wf, Flat, KeepsOpenings;
    CreateActualEffect(db, tx, today);
    var r := CreateActual(db, tx, today);
    if r.Ok? {
      CreatedKeepsOpenings(db, r.value.0, tx, r.value.1);
      CreatedKeepsFlat(db, r.value.0, tx, r.value.1);
    }
  }

  // Linking the freshly created transaction to a planned row.
  lemma LinkFreshToPlanned(db: Db, made: Db, tx: NewActual, txn: nat, id: nat)
    requires Wf(db) && id in db.planned && Created(db, made, tx, txn) && Sound(db, made)
    ensures id in made.planned && made.planned[id] == db.planned[id]
    ensures Sound(db, made.(planned := made.planned[id := db.planned[id].(posted := Some(txn))]))
  {
    FreshIdUnlinked(db, made, tx, txn);
    hide Wf, Flat, KeepsOpenings;
    var row := db.planned[id].(posted := Some(txn));
    LinkPlannedKeepsWf(made, id, row, Some(txn));
    KeepsOpeningsTo(db, made, made.(planned := made.planned[id := row]));
  }

  lemma LinkFreshToSub(db: Db, made: Db, tx: NewActual, txn: nat, linked: Db, s: nat)
    requires Wf(db) && s in db.subs && Created(db, made, tx, txn)
    requires Sound(db, linked) && linked == made.(planned := linked.planned)
    ensures s in linked.subs && linked.subs[s] == db.subs[s]
    ensures Sound(db, linked.(subs := linked.subs[s := db.subs[s].(posted := Some(txn))]))
  {
    FreshIdUnlinked(db, made, tx, txn);
    hide Wf, Flat, KeepsOpenings;
    var row := db.subs[s].(posted := Some(txn));
    LinkSubKeepsWf(linked, s, row, Some(txn));
    KeepsOpeningsTo(db, linked, linked.(subs := linked.subs[s := row]));
  }

  lemma PostPlannedSound(db: Db, id: nat, date: Date, today: Date)
    requires Wf(db) && Flat(db.actuals)
    ensures var r := PostPlanned(db, id, date, today); r.Ok? ==> Sound(db, r.value.0)
  {
    hide CreateActual, Created, Wf, Flat, Sound;
    if PostPlanned(db, id, date, today).Ok? {
      var tx := PostingOf(db, db.planned[id], date);
      CreateActualSound(db, tx, today);
      var made := CreateActual(db, tx, today).value;
      LinkFreshToPlanned(db, made.0, tx, made.1, id);
    }
  }

  lemma UnpostPlannedSound(db: Db, id: nat)
    requires Wf(db) && Flat(db.actuals)
    ensures var r := UnpostPlanned(db, id); r.Ok? ==> Sound(db, r.value)
  {
    hide DeleteActual, Wf, Flat, KeepsOpenings;
    if UnpostPlanned(db, id).Ok? {
      var row := db.planned[id].(posted := None);
      var unlinked := db.(planned := db.planned[id := row]);
      LinkPlannedKeepsWf(db, id, row, None);
      DeleteActualSound(unlinked, db.planned[id].posted.value);
      KeepsOpeningsFrom(db, unlinked, UnpostPlanned(db, id).value);
    }
  }

  lemma PayOccurrenceSound(db: Db, id: nat, date: Date, amount: Option<int>, today: Date)
    requires Wf(db) && Flat(db.actuals)
    ensures var r := PayOccurrence(db, id, date, amount, today); r.Ok? ==> Sound(db, r.value.0)
  {
    hide CreateActual, Created, Wf, Flat, Sound;
    if PayOccurrence(db, id, date, amount, today).Ok? {
      var tx := PaymentFor(db, db.planned[id], date, amount);
      CreateActualSound(db, tx, today);
      var made := CreateActual(db, tx, today).value;
      LinkFreshToPlanned(db, made.0, tx, made.1, id);
      var linked := made.0.(planned := made.0.planned[id := db.planned[id].(posted := Some(made.1))]);
      var sub := PayingSub(db, db.planned[id]);
      if sub.Some? {
        LinkFreshToSub(db, made.0, tx, made.1, linked, sub.value);
      }
    }
  }

  lemma PostWithoutOccurrenceSound(db: Db, s: nat, today: Date)
    requires Wf(db) && Flat(db.actuals) && s in db.subs
    ensures var r := PostWithoutOccurrence(db, s, today); r.Ok? ==> Sound(db, r.value.0)
  {
    hide CreateActual, Created, Wf, Flat, Sound;
    if PostWithoutOccurrence(db, s, today).Ok? {
      var tx := DirectPayment(db.subs[s], today);
      CreateActualSound(db, tx, today);
      var made := CreateActual(db, tx, today).value;
      LinkFreshToSub(db, made.0, tx, made.1, made.0, s);
    }
  }

  lemma PostSubscriptionSound(db: Db, s: nat, today: Date)
    requires Wf(db) && Flat(db.actuals)
    ensures var r := PostSubscription(db, s, today); r.Ok? ==> Sound(db, r.value.0)
  {
    hide PayOccurrence, PostWithoutOccurrence, OccurrencesOf, Wf, Flat, Sound;
    if s in db.subs {
      PostWithoutOccurrenceSound(db, s, today);
      var period := ActivePeriod(db);
      if period.Some? && DueOccurrence(db, period.value, s).Some? {
        PayOccurrenceSound(db, DueOccurrence(db, period.value, s).value, today, None, today);
      }
    }
  }

  lemma UnpostSubscriptionSound(db: Db, s: nat)
    requires Wf(db) && Flat(db.actuals)
    ensures var r := UnpostSubscription(db, s); r.Ok? ==> Sound(db, r.value)
  {
    hide DeleteActual, Wf, Flat, KeepsOpenings;
    if UnpostSubscription(db, s).Ok? {
      var row := db.subs[s].(posted := None);
      var unlinked := db.(subs := db.subs[s := row]);
      LinkSubKeepsWf(db, s, row, None);
      DeleteActualSound(unlinked, db.subs[s].posted.value);
      KeepsOpeningsFrom(db, unlinked, UnpostSubscription(db, s).value);
    }
  }

  // ---- Occurrences without money ----

  lemma UntouchedMoney(db: Db, after: Db)
    requires after.accounts == db.accounts && after.actuals == db.actuals && after.nextActual == db.nextActual
    ensures KeepsOpenings(db, after)
  {
    assert forall a :: Fold(after, a) == Fold(db, a);
  }

  lemma SkipSound(db: Db, id: nat)
    requires Wf(db) && Flat(db.actuals)
    ensures var r := SkipOccurrence(db, id); r.Ok? ==> Sound(db, r.value)
  {
    if SkipOccurrence(db, id).Ok? {
      UntouchedMoney(db, SkipOccurrence(db, id).value);
      hide Flat, KeepsOpenings, AccountsOk, PeriodsOk, ActualsOk, SubRowsOk, SubLinksUnique, CategoriesOk;
    }
  }

  lemma RescheduleKeepsPlannedOk(db: Db, id: nat, date: Date)
    requires PlannedRowsOk(db.planned, db.nextPlanned, db.periods.Keys, db.subs.Keys, db.actuals.Keys)
    requires PlannedLinksUnique(db.planned) && ChargeDatesUnique(db.planned) && id in db.planned
    ensures var m := db.planned[id := db.planned[id].(date := Some(date))];
            PlannedRowsOk(m, db.nextPlanned, db.periods.Keys, db.subs.Keys, db.actuals.Keys)
            && PlannedLinksUnique(m) && ChargeDatesUnique(m)
  {
    hide IsDate;
  }

  lemma PostponeSound(db: Db, id: nat, date: Date)
    requires Wf(db) && Flat(db.actuals)
    ensures var r := PostponeOccurrence(db, id, date); r.Ok? ==> Sound(db, r.value)
  {
    if PostponeOccurrence(db, id, date).Ok? {
      RescheduleKeepsPlannedOk(db, id, date);
      UntouchedMoney(db, PostponeOccurrence(db, id, date).value);
      hide Flat, KeepsOpenings, AccountsOk, PeriodsOk, ActualsOk, SubRowsOk, SubLinksUnique,
        PlannedRowsOk, PlannedLinksUnique, ChargeDatesUnique, Within, CategoriesOk;
    }
  }

  // ---- Posting, then unposting ----

  lemma {:induction false} NoChildNoDescendant(m: map<nat, Actual>, r: nat, root: nat)
    requires forall i | i in m :: m[i].parent != Some(root)
    ensures !Descends(m, r, root)
    decreases r
  {
    if r in m && m[r].parent.Some? && m[r].parent.value < r {
      NoChildNoDescendant(m, m[r].parent.value, root);
    }
  }

  lemma FreshRowHasNoChild(before: Db, made: Db, tx: NewActual, id: nat)
    requires Wf(before) && Created(before, made, tx, id)
    ensures id !in before.actuals
    ensures forall i | i in made.actuals :: made.actuals[i].parent != Some(id)
  {
    ActualIds(before);
    assert forall i | i in before.actuals ::
        ActualRowOk(before.actuals, i, before.nextActual, before.periods.Keys, before.accounts.Keys);
  }

  // Nothing hangs below a row that was just created.
  lemma FreshRowIsAlone(before: Db, made: Db, tx: NewActual, id: nat)
    requires Wf(before) && Created(before, made, tx, id)
    ensures Cascade(made.actuals, id) == {id} && Restored(made.actuals, id) == {id}
    ensures id !in before.actuals && made.actuals - {id} == before.actuals
  {
    FreshRowHasNoChild(before, made, tx, id);
    hide Wf, Descends;
    forall r | r in made.actuals
      ensures !Descends(made.actuals, r, id)
    {
      NoChildNoDescendant(made.actuals, r, id);
    }
  }

  lemma SingleContribution(db: Db, id: nat, a: nat)
    requires id < db.nextActual
    ensures Contribution(db, {id}, a) == Share(db.actuals, a)(id)
  {
    SumIsOne(Only({id}, Share(db.actuals, a)), db.nextActual, id);
  }

  // Taking a fresh row back restores every balance.
  lemma BalancesComeBack(before: Db, made: Db, tx: NewActual, id: nat, now: Db)
    requires Wf(before) && Created(before, made, tx, id)
    requires now.accounts == made.accounts && now.actuals == made.actuals && now.nextActual == made.nextActual
    ensures BalancesWithout(now, {id}) == before.accounts
  {
    hide Wf, Contribution, SignedDelta, OnlyPeriodsGrew;
    forall a | a in before.accounts
      ensures BalancesWithout(now, {id})[a] == before.accounts[a]
    {
      SingleContribution(now, id, a);
    }
    assert BalancesWithout(now, {id}).Keys == before.accounts.Keys;
  }

  // delete_actual_v10 undoes create_actual_v10: accounts and rows are as they
  // were, and whatever pointed at the row points nowhere.
  lemma DeleteUndoesCreate(before: Db, made: Db, tx: NewActual, id: nat, now: Db)
    requires Wf(before) && Created(before, made, tx, id)
    requires now.accounts == made.accounts && now.actuals == made.actuals && now.nextActual == made.nextActual
    ensures DeleteActual(now, id)
            == Ok(now.(accounts := before.accounts, actuals := before.actuals,
                       planned := UnlinkPlanned(now.planned, {id}), subs := UnlinkSubs(now.subs, {id})))
  {
    FreshRowIsAlone(before, made, tx, id);
    BalancesComeBack(before, made, tx, id, now);
    assert forall a | a in before.accounts :: InRange(before.accounts[a].balance);
    hide Wf, Cascade, Restored, BalancesWithout, UnlinkPlanned, UnlinkSubs, OnlyPeriodsGrew, InRange, SignedDelta;
  }

  // Links to a row nobody points at: erasing it changes no link.
  lemma UnlinkStranger(m: map<nat, Planned>, txn: nat)
    requires forall i | i in m :: m[i].posted != Some(txn)
    ensures UnlinkPlanned(m, {txn}) == m
  {
  }

  lemma UnlinkSubStranger(m: map<nat, Subscription>, txn: nat)
    requires forall s | s in m :: m[s].posted != Some(txn)
    ensures UnlinkSubs(m, {txn}) == m
  {
  }

  lemma UnlinkFresh(before: Db, made: Db, tx: NewActual, txn: nat)
    requires Wf(before) && Created(before, made, tx, txn)
    ensures UnlinkPlanned(before.planned, {txn}) == before.planned
    ensures UnlinkSubs(before.subs, {txn}) == before.subs
  {
    FreshIdUnlinked(before, made, tx, txn);
    hide Wf, UnlinkPlanned, UnlinkSubs;
    UnlinkStranger(before.planned, txn);
    UnlinkSubStranger(before.subs, txn);
  }

  // Erasing a row clears exactly the one link that was set to it.
  lemma UnlinkOnly(m: map<nat, Planned>, id: nat, txn: nat)
    requires id in m && m[id].posted.None? && forall i | i in m :: m[i].posted != Some(txn)
    ensures UnlinkPlanned(m[id := m[id].(posted := Some(txn))], {txn}) == m
  {
  }

  lemma LinkThenUnlink(m: map<nat, Planned>, id: nat, txn: nat)
    requires id in m && m[id].posted.None?
    ensures var linked := m[id := m[id].(posted := Some(txn))];
            linked[id := linked[id].(posted := None)] == m
  {
  }

  // The state in which unpost_planned deletes the transaction.
  function BeforeDelete(db: Db, id: nat): Db
    requires id in db.planned
  {
    db.(planned := db.planned[id := db.planned[id].(posted := None)])
  }

  lemma PostedThenUnlinked(db: Db, id: nat, date: Date, today: Date)
    requires Wf(db) && PostPlanned(db, id, date, today).Ok?
    ensures var (posted, txn) := PostPlanned(db, id, date, today).value;
            id in posted.planned && posted.planned[id].posted == Some(txn)
            && CreateActual(db, PostingOf(db, db.planned[id], date), today).Ok?
            && CreateActual(db, PostingOf(db, db.planned[id], date), today).value == (BeforeDelete(posted, id), txn)
  {
    CreateActualEffect(db, PostingOf(db, db.planned[id], date), today);
    hide Wf, CreateActual, PostingOf;
    var (made, txn) := CreateActual(db, PostingOf(db, db.planned[id], date), today).value;
    LinkThenUnlink(made.planned, id, txn);
  }

  // Posting a planned row and unposting it gives back every balance, every
  // transaction, every planned row and every subscription.
  lemma UnpostUndoesPost(db: Db, id: nat, date: Date, today: Date)
    requires Wf(db) && PostPlanned(db, id, date, today).Ok?
    ensures var back := UnpostPlanned(PostPlanned(db, id, date, today).value.0, id);
            back.Ok? && back.value.accounts == db.accounts && back.value.actuals == db.actuals
            && back.value.planned == db.planned && back.value.subs == db.subs
            && forall p | p in db.periods :: p in back.value.periods && back.value.periods[p] == db.periods[p]
  {
    PostedThenUnlinked(db, id, date, today);
    var tx := PostingOf(db, db.planned[id], date);
    CreateActualEffect(db, tx, today);
    var (made, txn) := CreateActual(db, tx, today).value;
    UnlinkFresh(db, made, tx, txn);
    DeleteUndoesCreate(db, made, tx, txn, made);
    hide Wf, CreateActual, DeleteActual, PostPlanned, UnlinkPlanned, UnlinkSubs, PostingOf, SignedDelta;
  }

  // The subscription table after unposting: the mirror is cleared.
  function Cleared(m: map<nat, Subscription>, s: nat): map<nat, Subscription>
    requires s in m
  {
    m[s := m[s].(posted := None)]
  }

  // What unposting a subscription must bring back, whichever path posted it.
  predicate Restores(db: Db, s: nat, back: Result<Db, Error>)
    requires s in db.subs
  {
    && back.Ok? && back.value.accounts == db.accounts && back.value.actuals == db.actuals
    && back.value.planned == db.planned && back.value.subs == Cleared(db.subs, s)
  }

  lemma RelinkThenClear(m: map<nat, Subscription>, s: nat, txn: nat)
    requires s in m && forall t | t in m :: m[t].posted != Some(txn)
    ensures Cleared(m[s := m[s].(posted := Some(txn))], s) == Cleared(m, s)
    ensures UnlinkSubs(Cleared(m, s), {txn}) == Cleared(m, s)
  {
    UnlinkSubStranger(Cleared(m, s), txn);
  }

  // A posted state that differs from the created one by links only.
  lemma UnpostFromLinks(db: Db, made: Db, tx: NewActual, txn: nat, s: nat, posted: Db)
    requires Wf(db) && Created(db, made, tx, txn) && s in db.subs
    requires posted == made.(planned := posted.planned, subs := db.subs[s := db.subs[s].(posted := Some(txn))])
    requires UnlinkPlanned(posted.planned, {txn}) == db.planned
    ensures Restores(db, s, UnpostSubscription(posted, s))
  {
    FreshIdUnlinked(db, made, tx, txn);
    RelinkThenClear(db.subs, s, txn);
    var now := posted.(subs := posted.subs[s := posted.subs[s].(posted := None)]);
    DeleteUndoesCreate(db, made, tx, txn, now);
    hide Wf, Created, DeleteActual, UnlinkPlanned, UnlinkSubs;
  }

  lemma UnpostUndoesPay(db: Db, id: nat, date: Date, amount: Option<int>, today: Date)
    requires Wf(db) && PayOccurrence(db, id, date, amount, today).Ok? && PayingSub(db, db.planned[id]).Some?
    ensures var (paid, _) := PayOccurrence(db, id, date, amount, today).value;
            var s := PayingSub(db, db.planned[id]).value;
            Restores(db, s, UnpostSubscription(paid, s))
  {
    var tx := PaymentFor(db, db.planned[id], date, amount);
    CreateActualEffect(db, tx, today);
    var (made, txn) := CreateActual(db, tx, today).value;
    FreshIdUnlinked(db, made, tx, txn);
    UnlinkOnly(db.planned, id, txn);
    var s := PayingSub(db, db.planned[id]).value;
    hide Wf, CreateActual, PaymentFor, UnlinkPlanned, PayingSub, UnpostSubscription;
    UnpostFromLinks(db, made, tx, txn, s, PayOccurrence(db, id, date, amount, today).value.0);
  }

  lemma UnpostUndoesDirectPost(db: Db, s: nat, today: Date)
    requires Wf(db) && s in db.subs && PostWithoutOccurrence(db, s, today).Ok?
    ensures Restores(db, s, UnpostSubscription(PostWithoutOccurrence(db, s, today).value.0, s))
  {
    var tx := DirectPayment(db.subs[s], today);
    CreateActualEffect(db, tx, today);
    var (made, txn) := CreateActual(db, tx, today).value;
    UnlinkFresh(db, made, tx, txn);
    hide Wf, CreateActual, Created, DirectPayment, UnlinkPlanned, UnlinkSubs, UnpostSubscription, Restores;
    UnpostFromLinks(db, made, tx, txn, s, PostWithoutOccurrence(db, s, today).value.0);
  }

  // Posting a subscription and unposting it gives back every balance, every
  // transaction and every occurrence; only the mirror link ends cleared.
  lemma UnpostUndoesPostSubscription(db: Db, s: nat, today: Date)
    requires Wf(db) && PostSubscription(db, s, today).Ok?
    ensures s in db.subs && Restores(db, s, UnpostSubscription(PostSubscription(db, s, today).value.0, s))
  {
    hide Wf, PayOccurrence, PostWithoutOccurrence, UnpostSubscription, Restores;
    var period := ActivePeriod(db);
    if period.None? || OccurrencesOf(db, period.value, s) == {} {
      UnpostUndoesDirectPost(db, s, today);
    } else {
      UnpostUndoesPay(db, DueOccurrence(db, period.value, s).value, today, None, today);
    }
  }

  // ---- Money on the primary account ----

  // The accounts after money reached (or left) the primary account.
  predicate PrimaryMoved(before: Db, after: Db, delta: int) {
    && after.accounts.Keys == before.accounts.Keys
    && forall a | a in before.accounts ::
         after.accounts[a] == before.accounts[a].(
           balance := before.accounts[a].balance + (if PrimaryAccount(before) == Some(a) then delta else 0))
  }

  lemma {:induction false} SameFlagsSamePrimary(m: map<nat, Account>, m': map<nat, Account>, n: nat)
    requires m.Keys == m'.Keys && forall a | a in m :: m[a].primary == m'[a].primary
    ensures FirstPrimary(m, n) == FirstPrimary(m', n)
  {
    if n == 0 {
    } else {
      SameFlagsSamePrimary(m, m', n - 1);
    }
  }

  lemma PrimaryMovedKeepsPrimary(before: Db, after: Db, delta: int)
    requires PrimaryMoved(before, after, delta) && after.nextAccount == before.nextAccount
    ensures PrimaryAccount(after) == PrimaryAccount(before)
  {
    SameFlagsSamePrimary(before.accounts, after.accounts, before.nextAccount);
  }

  lemma CreatedMovesPrimary(before: Db, after: Db, tx: NewActual, txn: nat, delta: int)
    requires Created(before, after, tx, txn) && tx.account == PrimaryAccount(before)
    requires delta == SignedDelta(tx.kind, tx.amount)
    ensures PrimaryMoved(before, after, delta)
  {
    hide SignedDelta, OnlyPeriodsGrew, PrimaryAccount;
  }
}
