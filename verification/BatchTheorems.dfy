// post_planned_batch over any list of ids, duplicates included
// (app/services/planned.py).
module BatchTheorems {
  import opened Wrappers
  import opened Calendar
  import opened Database
  import opened Ledger
  import opened LedgerTheorems
  import opened PostingTheorems

  // ---- One line ----

  // Everything posting one planned row does.
  predicate Posted(before: Db, after: Db, id: nat, txn: nat) {
    && id in before.planned && before.planned[id].posted.None? && !before.planned[id].source.SubscriptionAuto?
    && txn == before.nextActual && after.nextActual == txn + 1
    && txn in after.actuals && after.actuals == before.actuals[txn := after.actuals[txn]]
    && after.planned == before.planned[id := before.planned[id].(posted := Some(txn))]
    && PrimaryMoved(before, after, SignedDelta(before.planned[id].kind, before.planned[id].amount))
    && after.nextAccount == before.nextAccount && after.categories == before.categories
    && after.subs == before.subs && after.nextPlanned == before.nextPlanned
    && after.limits == before.limits && after.cycleDay == before.cycleDay
    && (forall p | p in before.periods :: p in after.periods && after.periods[p] == before.periods[p])
  }

  // Storing the sign in the amount does not change what the row moves.
  lemma StoredSignIsHarmless(kind: Kind, amount: int)
    ensures SignedDelta(kind, SignedForStorage(kind, amount)) == SignedDelta(kind, amount)
  {
  }

  function Relinked(made: Db, id: nat, row: Planned, txn: nat): Db {
    made.(planned := made.planned[id := row.(posted := Some(txn))])
  }

  lemma PostPlannedParts(db: Db, id: nat, date: Date, today: Date)
    requires PostPlanned(db, id, date, today).Ok?
    ensures id in db.planned && db.planned[id].posted.None? && !db.planned[id].source.SubscriptionAuto?
    ensures var made := CreateActual(db, PostingOf(db, db.planned[id], date), today);
            made.Ok? && PostPlanned(db, id, date, today)
            == Ok((Relinked(made.value.0, id, db.planned[id], made.value.1), made.value.1))
  {
    hide CreateActual, PostingOf;
  }

  lemma RelinkedIsPosted(db: Db, made: Db, id: nat, tx: NewActual, txn: nat)
    requires Created(db, made, tx, txn) && id in db.planned && db.planned[id].posted.None?
        && !db.planned[id].source.SubscriptionAuto?
    requires PrimaryMoved(db, made, SignedDelta(db.planned[id].kind, db.planned[id].amount))
    ensures Posted(db, Relinked(made, id, db.planned[id], txn), id, txn)
  {
    hide SignedDelta, PrimaryAccount;
  }

  lemma CreatedKeepsPlanned(db: Db, made: Db, tx: NewActual, txn: nat)
    requires Created(db, made, tx, txn)
    ensures made.planned == db.planned && txn in made.actuals
  {
    hide SignedDelta;
  }

  lemma RelinkedIsWf(db: Db, made: Db, id: nat, tx: NewActual, txn: nat)
    requires Wf(db) && Wf(made) && Created(db, made, tx, txn) && id in db.planned
    ensures Wf(Relinked(made, id, db.planned[id], txn))
  {
    hide Wf, Created;
    CreatedKeepsPlanned(db, made, tx, txn);
    FreshIdUnlinked(db, made, tx, txn);
    LinkPlannedKeepsWf(made, id, db.planned[id].(posted := Some(txn)), Some(txn));
  }

  lemma PostingMovesPrimary(db: Db, made: Db, id: nat, date: Date, txn: nat)
    requires id in db.planned && Created(db, made, PostingOf(db, db.planned[id], date), txn)
    ensures PrimaryMoved(db, made, SignedDelta(db.planned[id].kind, db.planned[id].amount))
  {
    var tx := PostingOf(db, db.planned[id], date);
    StoredSignIsHarmless(db.planned[id].kind, db.planned[id].amount);
    hide Created, PrimaryMoved, SignedDelta, SignedForStorage, PrimaryAccount;
    CreatedMovesPrimary(db, made, tx, txn, SignedDelta(tx.kind, tx.amount));
  }

  lemma PostPlannedEffect(db: Db, id: nat, date: Date, today: Date)
    requires Wf(db)
    ensures var r := PostPlanned(db, id, date, today);
            r.Ok? ==> Posted(db, r.value.0, id, r.value.1) && Wf(r.value.0)
  {
    hide *;
    if PostPlanned(db, id, date, today).Ok? {
      PostPlannedParts(db, id, date, today);
      var tx := PostingOf(db, db.planned[id], date);
      var (made, txn) := CreateActual(db, tx, today).value;
      CreateActualEffect(db, tx, today);
      PostingMovesPrimary(db, made, id, date, txn);
      RelinkedIsPosted(db, made, id, tx, txn);
      RelinkedIsWf(db, made, id, tx, txn);
    }
  }

  // ---- The whole batch ----

  // The ids posted at some position.
  function PostedIds(ids: seq<nat>, results: seq<Option<nat>>): set<nat>
    requires |ids| == |results|
  {
    if |ids| == 0 then {}
    else
      var last := |ids| - 1;
      PostedIds(ids[..last], results[..last]) + (if results[last].Some? then {ids[last]} else {})
  }

  function LineDelta(m: map<nat, Planned>, id: nat): int {
    if id in m then SignedDelta(m[id].kind, m[id].amount) else 0
  }

  // What the posted positions moved.
  function BatchDelta(m: map<nat, Planned>, ids: seq<nat>, results: seq<Option<nat>>): int
    requires |ids| == |results|
  {
    if |ids| == 0 then 0
    else
      var last := |ids| - 1;
      BatchDelta(m, ids[..last], results[..last]) + (if results[last].Some? then LineDelta(m, ids[last]) else 0)
  }

  // A posted row was unposted, not auto, and now links to a new transaction.
  predicate NowPosted(before: Db, after: Db, id: nat, txn: nat) {
    && id in before.planned && before.planned[id].posted.None? && !before.planned[id].source.SubscriptionAuto?
    && id in after.planned && after.planned[id] == before.planned[id].(posted := Some(txn))
    && before.nextActual <= txn < after.nextActual && txn in after.actuals
  }

  predicate PositionsLinked(before: Db, after: Db, ids: seq<nat>, results: seq<Option<nat>>)
    requires |ids| == |results|
  {
    forall k | 0 <= k < |ids| && results[k].Some? :: NowPosted(before, after, ids[k], results[k].value)
  }

  // Each posted position got a transaction of its own.
  predicate Ascending(results: seq<Option<nat>>) {
    forall k, l | 0 <= k < l < |results| && results[k].Some? && results[l].Some? ::
      results[k].value < results[l].value
  }

  predicate OthersUntouched(before: Db, after: Db, posted: set<nat>) {
    && after.planned.Keys == before.planned.Keys
    && (forall i | i in before.planned && i !in posted :: after.planned[i] == before.planned[i])
    && (forall t | t in before.actuals :: t in after.actuals && after.actuals[t] == before.actuals[t])
    && (forall t | t in after.actuals && t !in before.actuals :: before.nextActual <= t)
    && after.subs == before.subs && after.categories == before.categories && after.limits == before.limits
    && after.nextAccount == before.nextAccount && after.cycleDay == before.cycleDay
    && before.nextActual <= after.nextActual
  }

  predicate BatchDone(before: Db, after: Db, ids: seq<nat>, results: seq<Option<nat>>)
    requires |ids| == |results|
  {
    && PositionsLinked(before, after, ids, results) && Ascending(results)
    && OthersUntouched(before, after, PostedIds(ids, results))
    && PrimaryMoved(before, after, BatchDelta(before.planned, ids, results))
  }

  lemma {:induction false} PostedIdsByPosition(ids: seq<nat>, results: seq<Option<nat>>, id: nat)
    requires |ids| == |results|
    ensures id in PostedIds(ids, results) <==> exists k :: 0 <= k < |ids| && ids[k] == id && results[k].Some?
  {
    if |ids| == 0 {
    } else {
      var last := |ids| - 1;
      PostedIdsByPosition(ids[..last], results[..last], id);
      assert forall k | 0 <= k < last :: ids[..last][k] == ids[k] && results[..last][k] == results[k];
    }
  }

  lemma PrimaryMovesAdd(a: Db, b: Db, c: Db, d: int, e: int)
    requires PrimaryMoved(a, b, d) && PrimaryMoved(b, c, e) && b.nextAccount == a.nextAccount
    ensures PrimaryMoved(a, c, d + e)
  {
    PrimaryMovedKeepsPrimary(a, b, d);
    hide PrimaryAccount;
  }

  // One more position, skipped.
  lemma BatchSkips(before: Db, after: Db, ids: seq<nat>, results: seq<Option<nat>>, id: nat)
    requires |ids| == |results| && BatchDone(before, after, ids, results)
    ensures BatchDone(before, after, ids + [id], results + [None])
  {
    hide PrimaryMoved, LineDelta, OthersUntouched, NowPosted;
    assert (ids + [id])[..|ids|] == ids && (results + [None])[..|ids|] == results;
    assert PostedIds(ids + [id], results + [None]) == PostedIds(ids, results);
    assert BatchDelta(before.planned, ids + [id], results + [None]) == BatchDelta(before.planned, ids, results);
  }

  lemma LinkedPositionsGrow(before: Db, mid: Db, after: Db, ids: seq<nat>, results: seq<Option<nat>>, id: nat, txn: nat)
    requires |ids| == |results| && PositionsLinked(before, mid, ids, results) && Ascending(results)
    requires id !in PostedIds(ids, results) && Posted(mid, after, id, txn) && before.planned.Keys == mid.planned.Keys
    requires id in before.planned && before.planned[id] == mid.planned[id] && before.nextActual <= mid.nextActual
    ensures PositionsLinked(before, after, ids + [id], results + [Some(txn)]) && Ascending(results + [Some(txn)])
  {
    PostedIdsByPosition(ids, results, id);
    hide PrimaryMoved, SignedDelta, PostedIds;
    forall k | 0 <= k < |ids| && results[k].Some?
      ensures NowPosted(before, after, ids[k], results[k].value) && results[k].value < txn
    {
      assert NowPosted(before, mid, ids[k], results[k].value);
    }
    assert NowPosted(before, after, id, txn);
  }

  lemma OthersStayUntouched(before: Db, mid: Db, after: Db, posted: set<nat>, id: nat, txn: nat)
    requires OthersUntouched(before, mid, posted) && Posted(mid, after, id, txn)
    requires forall t | t in before.actuals :: t < before.nextActual
    ensures OthersUntouched(before, after, posted + {id})
  {
    hide PrimaryMoved, SignedDelta;
  }

  lemma PostedSumsGrow(m: map<nat, Planned>, ids: seq<nat>, results: seq<Option<nat>>, id: nat, txn: nat)
    requires |ids| == |results|
    ensures PostedIds(ids + [id], results + [Some(txn)]) == PostedIds(ids, results) + {id}
    ensures BatchDelta(m, ids + [id], results + [Some(txn)]) == BatchDelta(m, ids, results) + LineDelta(m, id)
  {
    assert (ids + [id])[..|ids|] == ids && (results + [Some(txn)])[..|ids|] == results;
  }

  lemma PostedIdIsNew(before: Db, mid: Db, after: Db, ids: seq<nat>, results: seq<Option<nat>>, id: nat, txn: nat)
    requires |ids| == |results| && BatchDone(before, mid, ids, results) && Posted(mid, after, id, txn)
    ensures id !in PostedIds(ids, results) && id in before.planned && before.planned[id] == mid.planned[id]
  {
    PostedIdsByPosition(ids, results, id);
    hide PostedIds, PrimaryMoved, SignedDelta, BatchDelta;
    assert forall k | 0 <= k < |ids| && results[k].Some? :: NowPosted(before, mid, ids[k], results[k].value);
  }

  // One more position, posted.
  lemma BatchPosts(before: Db, mid: Db, after: Db, ids: seq<nat>, results: seq<Option<nat>>, id: nat, txn: nat)
    requires |ids| == |results| && BatchDone(before, mid, ids, results) && Posted(mid, after, id, txn)
    requires forall t | t in before.actuals :: t < before.nextActual
    ensures id !in PostedIds(ids, results)
    ensures BatchDone(before, after, ids + [id], results + [Some(txn)])
  {
    PostedIdIsNew(before, mid, after, ids, results, id, txn);
    PostedSumsGrow(before.planned, ids, results, id, txn);
    LinkedPositionsGrow(before, mid, after, ids, results, id, txn);
    OthersStayUntouched(before, mid, after, PostedIds(ids, results), id, txn);
    PrimaryMovesAdd(before, mid, after, BatchDelta(before.planned, ids, results),
                    SignedDelta(mid.planned[id].kind, mid.planned[id].amount));
    hide PrimaryMoved, SignedDelta, BatchDelta, PostedIds, PositionsLinked, Ascending, OthersUntouched, Posted;
  }

  // The last position, after all the earlier ones.
  lemma BatchLast(db: Db, ids: seq<nat>, date: Option<Date>, today: Date)
    requires |ids| > 0
    ensures var earlier := PostBatch(db, ids[..|ids| - 1], date, today);
            var id := ids[|ids| - 1];
            PostBatch(db, ids, date, today)
            == if earlier.Err? then earlier
               else
                 var (mid, results) := earlier.value;
                 var next := PostPlanned(mid, id, LineDate(mid, id, date, today), today);
                 if next.Ok? then Ok((next.value.0, results + [Some(next.value.1)]))
                 else if Skippable(next.error) then Ok((mid, results + [None])) else Err(next.error)
  {
    hide PostPlanned, LineDate, Skippable;
  }

  lemma NoneDone(db: Db)
    ensures BatchDone(db, db, [], [])
  {
    assert PrimaryMoved(db, db, 0);
  }

  // On return every position is posted or skipped, each posted row has its own
  // new transaction, the primary account moved by exactly the posted rows, and
  // nothing else changed.
  lemma {:induction false} BatchPostsExactly(db: Db, ids: seq<nat>, date: Option<Date>, today: Date)
    requires Wf(db) && PostBatch(db, ids, date, today).Ok?
    ensures var (after, results) := PostBatch(db, ids, date, today).value;
            BatchDone(db, after, ids, results) && Wf(after)
  {
    if |ids| == 0 {
      NoneDone(db);
      hide Wf, BatchDone;
    } else {
      ActualIds(db);
      hide *;
      var last := |ids| - 1;
      BatchLast(db, ids, date, today);
      BatchPostsExactly(db, ids[..last], date, today);
      var (mid, results) := PostBatch(db, ids[..last], date, today).value;
      var line := LineDate(mid, ids[last], date, today);
      PostPlannedEffect(mid, ids[last], line, today);
      assert ids == ids[..last] + [ids[last]];
      var r := PostPlanned(mid, ids[last], line, today);
      if r.Ok? {
        BatchPosts(db, mid, r.value.0, ids[..last], results, ids[last], r.value.1);
      } else {
        BatchSkips(db, mid, ids[..last], results, ids[last]);
      }
    }
  }

  lemma KeepsOpeningsReflexive(db: Db)
    ensures KeepsOpenings(db, db)
  {
  }

  lemma KeepsOpeningsChain(a: Db, b: Db, c: Db)
    requires KeepsOpenings(a, b) && KeepsOpenings(b, c)
    ensures KeepsOpenings(a, c)
  {
    hide Opening;
  }

  lemma {:induction false} BatchSound(db: Db, ids: seq<nat>, date: Option<Date>, today: Date)
    requires Wf(db) && Flat(db.actuals)
    ensures var r := PostBatch(db, ids, date, today); r.Ok? ==> Sound(db, r.value.0)
  {
    hide Wf, Flat, PostPlanned, KeepsOpenings;
    if |ids| == 0 {
      KeepsOpeningsReflexive(db);
    } else {
      var last := |ids| - 1;
      BatchSound(db, ids[..last], date, today);
      var earlier := PostBatch(db, ids[..last], date, today);
      if earlier.Ok? {
        var mid := earlier.value.0;
        var line := LineDate(mid, ids[last], date, today);
        PostPlannedSound(mid, ids[last], line, today);
        var r := PostPlanned(mid, ids[last], line, today);
        if r.Ok? {
          KeepsOpeningsChain(db, mid, r.value.0);
        }
      }
    }
  }

  // ---- Repeating a batch ----

  // A row the batch may still post.
  predicate Candidate(db: Db, id: nat) {
    id in db.planned && !db.planned[id].source.SubscriptionAuto? && db.planned[id].posted.None?
  }

  // The line is skipped, for whatever reason.
  predicate Refused(db: Db, id: nat, date: Option<Date>, today: Date) {
    var r := PostPlanned(db, id, LineDate(db, id, date, today), today);
    r.Err? && Skippable(r.error)
  }

  // The posting guards that raise inside the savepoint: no period can be
  // resolved for the date, or the primary balance would leave its range.
  predicate Blocked(db: Db, id: nat, date: Option<Date>, today: Date)
    requires id in db.planned
  {
    var row := db.planned[id];
    var primary := PrimaryAccount(db);
    || ResolvePeriod(db, LineDate(db, id, date, today), today).1.None?
    || (primary.Some? && primary.value in db.accounts
        && !InRange(db.accounts[primary.value].balance + SignedDelta(row.kind, row.amount)))
  }

  // The batch runs through and posts nothing.
  predicate Idle(db: Db, ids: seq<nat>, date: Option<Date>, today: Date) {
    var r := PostBatch(db, ids, date, today);
    r.Ok? && forall k | 0 <= k < |ids| :: r.value.1[k].None?
  }

  lemma IdleSplits(db: Db, ids: seq<nat>, date: Option<Date>, today: Date)
    requires |ids| > 0
    ensures Idle(db, ids, date, today) <==>
            Idle(db, ids[..|ids| - 1], date, today)
            && Refused(PostBatch(db, ids[..|ids| - 1], date, today).value.0, ids[|ids| - 1], date, today)
  {
    hide PostPlanned, LineDate;
    var last := |ids| - 1;
    var earlier := PostBatch(db, ids[..last], date, today);
    var r := PostBatch(db, ids, date, today);
    if r.Ok? {
      assert earlier.Ok? && r.value.1[..last] == earlier.value.1;
      assert forall k | 0 <= k < last :: r.value.1[k] == earlier.value.1[k];
      assert r.value.1[last].None? <==> Refused(earlier.value.0, ids[last], date, today);
    }
  }

  lemma IdleKeepsTheState(db: Db, ids: seq<nat>, date: Option<Date>, today: Date)
    requires |ids| > 0
    requires Idle(db, ids[..|ids| - 1], date, today) ==> PostBatch(db, ids[..|ids| - 1], date, today).value.0 == db
    ensures Idle(db, ids, date, today) ==> PostBatch(db, ids, date, today).value.0 == db
  {
    IdleSplits(db, ids, date, today);
    hide PostPlanned, LineDate, Idle;
  }

  // A batch does nothing exactly when each of its lines is refused.
  lemma {:induction false} IdleExactly(db: Db, ids: seq<nat>, date: Option<Date>, today: Date)
    ensures Idle(db, ids, date, today) <==> forall k | 0 <= k < |ids| :: Refused(db, ids[k], date, today)
    ensures Idle(db, ids, date, today) ==> PostBatch(db, ids, date, today).value.0 == db
  {
    hide PostPlanned, LineDate, Refused;
    if |ids| == 0 {
    } else {
      var last := |ids| - 1;
      IdleExactly(db, ids[..last], date, today);
      IdleSplits(db, ids, date, today);
      IdleKeepsTheState(db, ids, date, today);
      assert forall k | 0 <= k < last :: ids[..last][k] == ids[k];
      hide Idle, PostBatch;
    }
  }

  // create_actual_v10's own checks read the category, the kind and the date.
  lemma ChecksReadLittle(db: Db, other: Db, row: Planned, date: Date, today: Date)
    requires db.categories == other.categories
    ensures CheckNewActual(db, PostingOf(db, row, date), today)
        == CheckNewActual(other, PostingOf(other, row, date), today)
    ensures CheckNewActual(db, PostingOf(db, row, date), today) != Some(IntegrityError)
  {
    hide TooFarAhead, PrimaryAccount, SignedForStorage;
  }

  // What the database refuses once the checks have passed: no period for the
  // date, an account or a parent row that does not exist, or a balance that
  // would leave its range.
  predicate DatabaseRefuses(db: Db, tx: NewActual, today: Date) {
    || ResolvePeriod(db, tx.date, today).1.None?
    || (tx.account.Some? && tx.account.value !in db.accounts)
    || (tx.parent.Some? && tx.parent.value !in db.actuals)
    || (tx.account.Some? && tx.account.value in db.accounts
        && !InRange(db.accounts[tx.account.value].balance + SignedDelta(tx.kind, tx.amount)))
  }

  // A transaction that passes the checks is recorded or violates a constraint,
  // and which of the two is decided by the state it meets.
  lemma CreateRaisesIntegrityExactly(db: Db, tx: NewActual, today: Date)
    requires CheckNewActual(db, tx, today).None?
    ensures var r := CreateActual(db, tx, today);
            if DatabaseRefuses(db, tx, today) then r == Err(IntegrityError) else r.Ok?
  {
    hide CheckNewActual, ResolvePeriod, InRange, SignedDelta;
    var (resolved, period) := ResolvePeriod(db, tx.date, today);
    ResolveFrame(db, tx.date, today);
    var inserted := InsertActual(resolved, tx, period);
    if inserted.Ok? && tx.account.Some? {
      assert inserted.value.0.accounts == db.accounts;
    }
  }

  lemma ChecksRaiseOther(db: Db, tx: NewActual, today: Date)
    ensures CheckNewActual(db, tx, today) != Some(AccountNotFound)
    ensures CheckNewActual(db, tx, today) != Some(IntegrityError)
  {
    hide TooFarAhead;
  }

  // The documented AccountNotFoundError is never raised: a missing account is a
  // violated foreign key, in every state and for every transaction.
  lemma MissingAccountIsIntegrity(db: Db, tx: NewActual, today: Date)
    ensures CreateActual(db, tx, today) != Err(AccountNotFound)
    ensures CheckNewActual(db, tx, today).None? && tx.account.Some? && tx.account.value !in db.accounts ==>
              CreateActual(db, tx, today) == Err(IntegrityError)
  {
    ChecksRaiseOther(db, tx, today);
    if CheckNewActual(db, tx, today).None? {
      CreateRaisesIntegrityExactly(db, tx, today);
    }
    hide CheckNewActual, ResolvePeriod, InRange, SignedDelta, InsertActual, ApplyDelta;
  }

  // A candidate that passes those checks is refused exactly when it is blocked.
  lemma RefusedExactly(db: Db, id: nat, date: Option<Date>, today: Date)
    requires Candidate(db, id)
    requires CheckNewActual(db, PostingOf(db, db.planned[id], LineDate(db, id, date, today)), today).None?
    ensures Refused(db, id, date, today) <==> Blocked(db, id, date, today)
  {
    StoredSignIsHarmless(db.planned[id].kind, db.planned[id].amount);
    hide LineDate, CheckNewActual, InRange, SignedDelta, SignedForStorage, CreateActual, ResolvePeriod;
    CreateRaisesIntegrityExactly(db, PostingOf(db, db.planned[id], LineDate(db, id, date, today)), today);
  }

  predicate Vetted(db: Db, id: nat, date: Option<Date>, today: Date)
    requires id in db.planned
  {
    CheckNewActual(db, PostingOf(db, db.planned[id], LineDate(db, id, date, today)), today).None?
  }

  lemma SameRowSameVetting(db: Db, other: Db, id: nat, date: Option<Date>, today: Date)
    requires db.categories == other.categories && id in db.planned && id in other.planned
    requires db.planned[id] == other.planned[id]
    ensures Vetted(db, id, date, today) == Vetted(other, id, date, today)
  {
    ChecksReadLittle(db, other, db.planned[id], LineDate(db, id, date, today), today);
  }

  lemma UnskippableAborts(db: Db, id: nat, date: Option<Date>, today: Date)
    requires Candidate(db, id) && !Vetted(db, id, date, today)
    ensures var r := PostPlanned(db, id, LineDate(db, id, date, today), today); r.Err? && !Skippable(r.error)
  {
    ChecksReadLittle(db, db, db.planned[id], LineDate(db, id, date, today), today);
    hide LineDate, PostingOf, ResolvePeriod;
  }

  // A batch that returns has checked every candidate it met.
  lemma {:induction false} BatchVets(db: Db, ids: seq<nat>, date: Option<Date>, today: Date, id: nat)
    requires Wf(db) && PostBatch(db, ids, date, today).Ok? && id in ids && Candidate(db, id)
    ensures Vetted(db, id, date, today)
  {
    var last := |ids| - 1;
    hide Wf, Vetted, PostPlanned, LineDate, PositionsLinked, PrimaryMoved;
    if id in ids[..last] {
      BatchVets(db, ids[..last], date, today, id);
    } else {
      BatchPostsExactly(db, ids[..last], date, today);
      var (mid, results) := PostBatch(db, ids[..last], date, today).value;
      PostedIdsByPosition(ids[..last], results, id);
      assert ids[last] == id && id !in PostedIds(ids[..last], results);
      SameRowSameVetting(db, mid, id, date, today);
      if !Vetted(mid, id, date, today) {
        UnskippableAborts(mid, id, date, today);
      }
    }
  }

  lemma NonCandidatesAreRefused(db: Db, id: nat, date: Option<Date>, today: Date)
    requires !Candidate(db, id)
    ensures Refused(db, id, date, today)
  {
    hide CreateActual, LineDate;
  }

  // A row still unposted at the end is as it was before the batch.
  lemma LeftoverWasCandidate(db: Db, after: Db, ids: seq<nat>, results: seq<Option<nat>>, id: nat)
    requires |ids| == |results| && BatchDone(db, after, ids, results) && Candidate(after, id)
    ensures Candidate(db, id) && db.planned[id] == after.planned[id] && db.categories == after.categories
  {
    PostedIdsByPosition(ids, results, id);
    hide PrimaryMoved, PostedIds;
    assert forall k | 0 <= k < |ids| && results[k].Some? :: after.planned[ids[k]].posted.Some?;
  }

  // Repeating the batch posts nothing if and only if each row it left unposted
  // is still blocked in the state it left.
  lemma RepeatIdleExactly(db: Db, ids: seq<nat>, date: Option<Date>, today: Date)
    requires Wf(db) && PostBatch(db, ids, date, today).Ok?
    ensures var after := PostBatch(db, ids, date, today).value.0;
            Idle(after, ids, date, today) <==>
            forall k | 0 <= k < |ids| && Candidate(after, ids[k]) :: Blocked(after, ids[k], date, today)
  {
    var (after, results) := PostBatch(db, ids, date, today).value;
    BatchPostsExactly(db, ids, date, today);
    IdleExactly(after, ids, date, today);
    forall k | 0 <= k < |ids|
      ensures Refused(after, ids[k], date, today)
              <==> !Candidate(after, ids[k]) || Blocked(after, ids[k], date, today)
    {
      if Candidate(after, ids[k]) {
        LeftoverWasCandidate(db, after, ids, results, ids[k]);
        BatchVets(db, ids, date, today, ids[k]);
        SameRowSameVetting(db, after, ids[k], date, today);
        RefusedExactly(after, ids[k], date, today);
      } else {
        NonCandidatesAreRefused(after, ids[k], date, today);
      }
    }
    hide Idle, Refused, Blocked, Candidate, PostBatch, BatchDone, Wf;
  }

  // ---- Batches whose repetition posts ----

  // A period covers the date a line is posted on.
  predicate LineCovered(db: Db, id: nat, date: Option<Date>, today: Date) {
    exists p | p in db.periods :: Within(db.periods[p].start, LineDate(db, id, date, today), db.periods[p].end)
  }

  lemma CoveredLineResolves(db: Db, id: nat, date: Option<Date>, today: Date)
    requires PeriodsOk(db.periods, db.nextPeriod) && LineCovered(db, id, date, today)
    ensures ResolvePeriod(db, LineDate(db, id, date, today), today).1.Some?
  {
    hide LineDate, Within, NewPeriod, PeriodClashes;
    var p :| p in db.periods && Within(db.periods[p].start, LineDate(db, id, date, today), db.periods[p].end);
    assert p in CoveringIds(db.periods, LineDate(db, id, date, today));
  }

  // The primary balance after a line would be posted.
  function BalanceWith(db: Db, id: nat): int
    requires id in db.planned && PrimaryAccount(db).Some?
  {
    db.accounts[PrimaryAccount(db).value].balance + SignedDelta(db.planned[id].kind, db.planned[id].amount)
  }

  predicate ReadyLine(db: Db, id: nat, date: Option<Date>, today: Date) {
    Candidate(db, id) && Vetted(db, id, date, today) && LineCovered(db, id, date, today)
  }

  lemma ReadyLineRefusedByRange(db: Db, id: nat, date: Option<Date>, today: Date)
    requires Wf(db) && ReadyLine(db, id, date, today) && PrimaryAccount(db).Some?
    ensures Refused(db, id, date, today) <==> !InRange(BalanceWith(db, id))
    ensures var r := PostPlanned(db, id, LineDate(db, id, date, today), today); r.Err? ==> Skippable(r.error)
  {
    RefusedExactly(db, id, date, today);
    CoveredLineResolves(db, id, date, today);
    CreateRaisesIntegrityExactly(db, PostingOf(db, db.planned[id], LineDate(db, id, date, today)), today);
    hide Wf, CreateActual, LineDate, CheckNewActual, ResolvePeriod, InRange, SignedDelta, LineCovered;
  }

  lemma BalanceAfterPosting(db: Db, after: Db, b: nat, txn: nat, a: nat)
    requires Posted(db, after, b, txn) && a != b && a in db.planned && PrimaryAccount(db).Some?
    ensures PrimaryAccount(after) == PrimaryAccount(db) && a in after.planned
    ensures BalanceWith(after, a) == BalanceWith(db, b) + SignedDelta(db.planned[a].kind, db.planned[a].amount)
  {
    PrimaryMovedKeepsPrimary(db, after, SignedDelta(db.planned[b].kind, db.planned[b].amount));
    hide SignedDelta;
  }

  lemma TwoLineBatch(db: Db, a: nat, b: nat, date: Option<Date>, today: Date)
    requires Refused(db, a, date, today)
    requires PostPlanned(db, b, LineDate(db, b, date, today), today).Ok?
    ensures var r := PostBatch(db, [a, b], date, today);
            var posted := PostPlanned(db, b, LineDate(db, b, date, today), today).value;
            r.Ok? && r.value.0 == posted.0 && r.value.1 == [None, Some(posted.1)]
  {
    hide PostPlanned, LineDate;
    var one := [a];
    var two := [a, b];
    assert one[..|one| - 1] == [] && two[..|two| - 1] == one;
    assert PostBatch(db, one[..|one| - 1], date, today).value.1 == [];
    var first := PostBatch(db, one, date, today);
    assert first.Ok? && first.value.0 == db && first.value.1 == [None];
  }

  lemma LeftLineStaysReady(db: Db, after: Db, b: nat, txn: nat, a: nat, date: Option<Date>, today: Date)
    requires Posted(db, after, b, txn) && a != b && ReadyLine(db, a, date, today)
    ensures ReadyLine(after, a, date, today)
  {
    SameRowSameVetting(db, after, a, date, today);
    hide PrimaryMoved, Vetted, Within;
    var p :| p in db.periods && Within(db.periods[p].start, LineDate(db, a, date, today), db.periods[p].end);
    assert p in after.periods;
  }

  // Two lines, the first of which only fits the range after the second: the
  // batch skips the first and posts the second; repeated, it posts the first.
  lemma RepeatPostsWhatFitsLater(db: Db, a: nat, b: nat, date: Option<Date>, today: Date)
    requires Wf(db) && a != b && PrimaryAccount(db).Some?
    requires ReadyLine(db, a, date, today) && ReadyLine(db, b, date, today)
    requires !InRange(BalanceWith(db, a)) && InRange(BalanceWith(db, b))
    requires InRange(BalanceWith(db, b) + SignedDelta(db.planned[a].kind, db.planned[a].amount))
    ensures var r := PostBatch(db, [a, b], date, today);
            r.Ok? && r.value.1[0].None? && r.value.1[1].Some? && !Idle(r.value.0, [a, b], date, today)
  {
    ReadyLineRefusedByRange(db, a, date, today);
    ReadyLineRefusedByRange(db, b, date, today);
    var line := LineDate(db, b, date, today);
    PostPlannedEffect(db, b, line, today);
    var r := PostPlanned(db, b, line, today);
    TwoLineBatch(db, a, b, date, today);
    var after := r.value.0;
    LeftLineStaysReady(db, after, b, r.value.1, a, date, today);
    BalanceAfterPosting(db, after, b, r.value.1, a);
    ReadyLineRefusedByRange(after, a, date, today);
    IdleExactly(after, [a, b], date, today);
    assert [a, b][0] == a;
    hide Wf, PostBatch, PostPlanned, Posted, Refused, ReadyLine, LineDate, Idle, BalanceWith;
  }
}
