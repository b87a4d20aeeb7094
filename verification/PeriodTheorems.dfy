// The periods of one user over any run of look-ups and creations
// (app/services/actual.py, app/services/periods.py, app/worker/jobs/close_period.py).
module PeriodTheorems {
  import opened Wrappers
  import opened Calendar
  import opened PeriodEngine
  import opened Database
  import opened Ledger
  import opened LedgerTheorems

  // Every stored period is one that period_for computes for the cycle day.
  predicate AlignedRow(row: Period, cycleDay: CycleDay) {
    PeriodFor(row.start, cycleDay) == Ok(Bounds(row.start, row.end))
  }

  predicate AllAligned(ps: map<nat, Period>, cycleDay: CycleDay) { forall p | p in ps :: AlignedRow(ps[p], cycleDay) }

  predicate Aligned(db: Db) { AllAligned(db.periods, db.cycleDay) }

  predicate Covers(row: Period, d: Date) { Within(row.start, d, row.end) }

  // The active period, if any, contains today.
  predicate ActiveIsCurrent(db: Db, today: Date) {
    forall p | p in db.periods && db.periods[p].active :: Covers(db.periods[p], today)
  }

  // No date lies in two stored periods.
  ghost predicate Disjoint(db: Db) {
    forall p, q, d: Date | p in db.periods && q in db.periods && Covers(db.periods[p], d)
        && Covers(db.periods[q], d) :: p == q
  }

  // ---- Aligned periods are the cells of one partition ----

  lemma AlignedCoversExactly(row: Period, cycleDay: CycleDay, d: Date)
    requires AlignedRow(row, cycleDay)
    ensures Covers(row, d) <==> PeriodFor(d, cycleDay) == Ok(Bounds(row.start, row.end))
  {
    hide PeriodFor;
    PeriodForPartitions(row.start, d, cycleDay);
  }

  lemma StartLiesInside(d: Date, cycleDay: CycleDay)
    ensures PeriodFor(d, cycleDay).Ok?
    ensures Contains(PeriodFor(d, cycleDay).value, PeriodFor(d, cycleDay).value.start)
  {
    hide PeriodFor, Before;
    PeriodForPartitions(d, d, cycleDay);
    var b := PeriodFor(d, cycleDay).value;
    OrdinalOrders(b.start, d);
    OrdinalOrders(d, b.end);
    OrdinalOrders(b.start, b.end);
    hide Ordinal;
  }

  lemma NewPeriodAligned(d: Date, cycleDay: CycleDay, starting: int, today: Date)
    ensures var row := NewPeriod(d, cycleDay, starting, today);
            AlignedRow(row, cycleDay) && Covers(row, d) && (row.active <==> Covers(row, today))
  {
    hide PeriodFor;
    PeriodForPartitions(d, d, cycleDay);
    PeriodForPartitions(d, PeriodFor(d, cycleDay).value.start, cycleDay);
    StartLiesInside(d, cycleDay);
  }

  // Two aligned periods that share a date have the same start, hence are one row.
  lemma AlignedAreDisjoint(db: Db)
    requires Aligned(db) && PeriodsOk(db.periods, db.nextPeriod)
    ensures Disjoint(db)
  {
    hide PeriodFor, Covers, AlignedRow;
    forall p, q, d: Date | p in db.periods && q in db.periods && Covers(db.periods[p], d) && Covers(db.periods[q], d)
      ensures p == q
    {
      assert AlignedRow(db.periods[p], db.cycleDay) && AlignedRow(db.periods[q], db.cycleDay);
      AlignedCoversExactly(db.periods[p], db.cycleDay, d);
      AlignedCoversExactly(db.periods[q], db.cycleDay, d);
    }
  }

  lemma SameStartSamePeriod(a: Period, b: Period, cycleDay: CycleDay, d: Date)
    requires AlignedRow(a, cycleDay) && AlignedRow(b, cycleDay) && a.start == b.start && Covers(b, d)
    ensures Covers(a, d)
  {
    hide PeriodFor, Within;
  }

  lemma BothCoverSame(a: Period, b: Period, cycleDay: CycleDay, d: Date, e: Date)
    requires AlignedRow(a, cycleDay) && AlignedRow(b, cycleDay) && Covers(a, d) && Covers(b, d) && Covers(b, e)
    ensures Covers(a, e) && a.start == b.start
  {
    hide PeriodFor, Covers, AlignedRow;
    AlignedCoversExactly(a, cycleDay, d);
    AlignedCoversExactly(b, cycleDay, d);
    AlignedCoversExactly(a, cycleDay, e);
    AlignedCoversExactly(b, cycleDay, e);
  }

  // ---- _resolve_period_for_date ----

  lemma CoveringFound(db: Db, d: Date)
    requires PeriodsOk(db.periods, db.nextPeriod)
    ensures PeriodCovering(db, d).None? <==> forall p | p in db.periods :: !Covers(db.periods[p], d)
    ensures PeriodCovering(db, d).Some? ==> Covers(db.periods[PeriodCovering(db, d).value], d)
  {
    hide Within;
    assert forall p | p in db.periods :: p in CoveringIds(db.periods, d) <==> Covers(db.periods[p], d);
    hide LatestOf;
  }

  // What comes back contains the date ...
  lemma ResolveContains(db: Db, d: Date, today: Date)
    requires PeriodsOk(db.periods, db.nextPeriod)
    ensures var (after, p) := ResolvePeriod(db, d, today);
            p.Some? ==> p.value in after.periods && Covers(after.periods[p.value], d)
  {
    CoveringFound(db, d);
    NewPeriodAligned(d, db.cycleDay, 0, today);
    hide NewPeriod, PeriodCovering, PeriodClashes, Within, AlignedRow;
  }

  predicate Uncovered(db: Db, d: Date) { forall p | p in db.periods :: !Covers(db.periods[p], d) }

  predicate HasActive(db: Db) { exists p | p in db.periods :: db.periods[p].active }

  // A period of its own cell can only clash on "one active period".
  lemma ClashWhenUncovered(db: Db, row: Period, d: Date)
    requires Aligned(db) && AlignedRow(row, db.cycleDay) && Covers(row, d) && Uncovered(db, d)
    ensures PeriodClashes(db, row) <==> row.active && HasActive(db)
  {
    hide Covers, AlignedRow;
    forall p | p in db.periods
      ensures db.periods[p].start != row.start
    {
      if db.periods[p].start == row.start {
        SameStartSamePeriod(db.periods[p], row, db.cycleDay, d);
      }
    }
  }

  // ... and nothing comes back exactly when no stored period covers the date,
  // the new period would contain today, and a period is active already.
  lemma ResolveFailsExactly(db: Db, d: Date, today: Date)
    requires PeriodsOk(db.periods, db.nextPeriod) && Aligned(db)
    ensures ResolvePeriod(db, d, today).1.None? <==>
            Uncovered(db, d) && Covers(NewPeriod(d, db.cycleDay, 0, today), today) && HasActive(db)
  {
    var row := NewPeriod(d, db.cycleDay, 0, today);
    CoveringFound(db, d);
    NewPeriodAligned(d, db.cycleDay, 0, today);
    hide NewPeriod, PeriodCovering, PeriodClashes, PeriodsOk, Covers, AlignedRow, Aligned, HasActive, CategoriesOk;
    if Uncovered(db, d) {
      ClashWhenUncovered(db, row, d);
    }
  }

  // So while the active period contains today the look-up always succeeds.
  lemma ResolveSucceedsWhileCurrent(db: Db, d: Date, today: Date)
    requires PeriodsOk(db.periods, db.nextPeriod) && Aligned(db) && ActiveIsCurrent(db, today)
    ensures ResolvePeriod(db, d, today).1.Some?
  {
    ResolveFailsExactly(db, d, today);
    NewPeriodAligned(d, db.cycleDay, 0, today);
    hide NewPeriod, ResolvePeriod, AlignedRow, Covers, PeriodsOk, CategoriesOk;
    var row := NewPeriod(d, db.cycleDay, 0, today);
    if Covers(row, today) && HasActive(db) {
      var p :| p in db.periods && db.periods[p].active;
      assert AlignedRow(db.periods[p], db.cycleDay);
      BothCoverSame(db.periods[p], row, db.cycleDay, today, d);
    }
  }

  // ---- Runs ----

  datatype PeriodCall = First(starting: int) | Resolve(d: Date)

  function PeriodStep(db: Db, c: PeriodCall, today: Date): Db {
    match c
    case Resolve(d) => ResolvePeriod(db, d, today).0
    case First(starting) =>
      match CreateFirstPeriod(db, starting, today)
      case Ok((after, _)) => after
      case Err(_) => db
  }

  function PeriodRun(db: Db, calls: seq<(PeriodCall, Date)>): Db {
    if |calls| == 0 then db
    else PeriodStep(PeriodRun(db, calls[..|calls| - 1]), calls[|calls| - 1].0, calls[|calls| - 1].1)
  }

  lemma AlignmentReadsBounds(a: Period, b: Period, cycleDay: CycleDay)
    requires AlignedRow(a, cycleDay) && a.start == b.start && a.end == b.end
    ensures AlignedRow(b, cycleDay)
  {
  }

  lemma PeriodStepKeeps(db: Db, c: PeriodCall, today: Date)
    requires PeriodsOk(db.periods, db.nextPeriod) && Aligned(db)
    ensures var after := PeriodStep(db, c, today);
            PeriodsOk(after.periods, after.nextPeriod) && Aligned(after) && after.cycleDay == db.cycleDay
  {
    hide NewPeriod, PeriodCovering, PeriodClashes, PeriodsOk, AlignedRow, CategoriesOk;
    match c
    case Resolve(d) =>
      NewPeriodAligned(d, db.cycleDay, 0, today);
      if !PeriodClashes(db, NewPeriod(d, db.cycleDay, 0, today)) {
        PeriodsOkInsert(db, NewPeriod(d, db.cycleDay, 0, today));
      }
    case First(starting) =>
      var row := NewPeriod(today, db.cycleDay, starting, today).(active := true);
      NewPeriodAligned(today, db.cycleDay, starting, today);
      AlignmentReadsBounds(NewPeriod(today, db.cycleDay, starting, today), row, db.cycleDay);
      if !PeriodClashes(db, row) {
        PeriodsOkInsert(db, row);
      }
  }

  // On every run, at most one period is active, no two share a start, and no
  // date lies in two of them.
  lemma {:induction false} PeriodRunKeepsPartition(db: Db, calls: seq<(PeriodCall, Date)>)
    requires PeriodsOk(db.periods, db.nextPeriod) && Aligned(db)
    ensures var after := PeriodRun(db, calls);
            PeriodsOk(after.periods, after.nextPeriod) && Aligned(after) && after.cycleDay == db.cycleDay
                && Disjoint(after)
  {
    hide PeriodStep, PeriodsOk, Aligned, Disjoint, CategoriesOk;
    if |calls| == 0 {
    } else {
      PeriodRunKeepsPartition(db, calls[..|calls| - 1]);
      PeriodStepKeeps(PeriodRun(db, calls[..|calls| - 1]), calls[|calls| - 1].0, calls[|calls| - 1].1);
    }
    AlignedAreDisjoint(PeriodRun(db, calls));
  }

  lemma StartsAgreeExactly(a: Period, b: Period, cycleDay: CycleDay, d: Date)
    requires AlignedRow(a, cycleDay) && AlignedRow(b, cycleDay) && Covers(b, d)
    ensures a.start == b.start <==> Covers(a, d)
  {
    if a.start == b.start {
      SameStartSamePeriod(a, b, cycleDay, d);
    } else if Covers(a, d) {
      BothCoverSame(a, b, cycleDay, d, d);
    }
  }

  // create_first_period collides exactly when a period is active already or
  // some stored period covers today.
  lemma FirstFailsExactly(db: Db, starting: int, today: Date)
    requires PeriodsOk(db.periods, db.nextPeriod) && Aligned(db)
    ensures CreateFirstPeriod(db, starting, today).Err? <==> HasActive(db) || !Uncovered(db, today)
  {
    var current := NewPeriod(today, db.cycleDay, starting, today);
    NewPeriodAligned(today, db.cycleDay, starting, today);
    hide NewPeriod, Covers, AlignedRow, PeriodsOk, CategoriesOk;
    forall p | p in db.periods
      ensures db.periods[p].start == current.start <==> Covers(db.periods[p], today)
    {
      assert AlignedRow(db.periods[p], db.cycleDay);
      StartsAgreeExactly(db.periods[p], current, db.cycleDay, today);
    }
  }

  // ---- Rolling over an expired period ----

  predicate Expired(db: Db, today: Date) {
    ActivePeriod(db).Some? && Before(db.periods[ActivePeriod(db).value].end, today)
  }

  function Closed(db: Db, a: nat): Db
    requires a in db.periods
  {
    db.(periods := db.periods[a := db.periods[a].(active := false)])
  }

  // The period part of close_period: the expired active period is closed first,
  // then the period of today is inserted as the active one.
  function RollOver(db: Db, ending: int, today: Date): Result<Db, Error>
    requires Expired(db, today)
  {
    var p := ActivePeriod(db).value;
    var closed := Closed(db, p);
    var row := NewPeriod(today, db.cycleDay, ending, today).(active := true);
    if PeriodClashes(closed, row) then Err(IntegrityError) else Ok(InsertPeriod(closed, row))
  }

  lemma ClosingLeavesNoneActive(db: Db, a: nat)
    requires PeriodsOk(db.periods, db.nextPeriod) && a in db.periods && db.periods[a].active
    ensures Closed(db, a).periods.Keys == db.periods.Keys
    ensures forall p | p in db.periods ::
              !Closed(db, a).periods[p].active && Closed(db, a).periods[p].start == db.periods[p].start
  {
    assert Closed(db, a).periods.Keys == db.periods.Keys;
  }

  lemma ClosingKeepsPeriods(db: Db, a: nat)
    requires PeriodsOk(db.periods, db.nextPeriod) && Aligned(db) && a in db.periods
    ensures PeriodsOk(Closed(db, a).periods, db.nextPeriod) && Aligned(Closed(db, a))
  {
    hide AlignedRow;
    AlignmentReadsBounds(db.periods[a], db.periods[a].(active := false), db.cycleDay);
  }

  lemma TheActiveOne(db: Db, p: nat)
    requires PeriodsOk(db.periods, db.nextPeriod) && p in db.periods && db.periods[p].active
    ensures ActivePeriod(db) == Some(p)
  {
    assert p in ActiveIds(db.periods);
  }

  lemma ClashAfterClosing(db: Db, a: nat, current: Period, today: Date)
    requires PeriodsOk(db.periods, db.nextPeriod) && Aligned(db) && AlignedRow(current, db.cycleDay)
    requires Covers(current, today) && a in db.periods && db.periods[a].active
    ensures PeriodClashes(Closed(db, a), current.(active := true)) <==> !Uncovered(db, today)
  {
    var closed := Closed(db, a);
    ClosingLeavesNoneActive(db, a);
    hide PeriodsOk, AlignedRow, Covers, Closed, CategoriesOk;
    forall p | p in db.periods
      ensures db.periods[p].start == current.start <==> Covers(db.periods[p], today)
    {
      StartsAgreeExactly(db.periods[p], current, db.cycleDay, today);
    }
  }

  // It fails exactly when some stored period already covers today, as one
  // created ahead of time by a transaction of the coming days does.
  lemma RollOverFailsExactly(db: Db, ending: int, today: Date)
    requires PeriodsOk(db.periods, db.nextPeriod) && Aligned(db) && Expired(db, today)
    ensures RollOver(db, ending, today).Err? <==> !Uncovered(db, today)
  {
    var current := NewPeriod(today, db.cycleDay, ending, today);
    NewPeriodAligned(today, db.cycleDay, ending, today);
    ClashAfterClosing(db, ActivePeriod(db).value, current, today);
    hide NewPeriod, Covers, AlignedRow, PeriodClashes, ActivePeriod;
  }

  lemma InsertKeepsCells(db: Db, row: Period)
    requires Aligned(db) && AlignedRow(row, db.cycleDay)
    ensures var after := InsertPeriod(db, row);
            Aligned(after) && db.nextPeriod in after.periods && after.periods[db.nextPeriod] == row
  {
    hide AlignedRow;
  }

  lemma RollOverParts(db: Db, ending: int, today: Date)
    requires Expired(db, today) && RollOver(db, ending, today).Ok?
    ensures var p, row := ActivePeriod(db).value, NewPeriod(today, db.cycleDay, ending, today).(active := true);
            && Closed(db, p).nextPeriod == db.nextPeriod && Closed(db, p).cycleDay == db.cycleDay
            && !PeriodClashes(Closed(db, p), row) && RollOver(db, ending, today) == Ok(InsertPeriod(Closed(db, p), row))
  {
    hide NewPeriod, PeriodClashes, ActivePeriod, InsertPeriod, Before;
  }

  // When it goes through, the periods are still a part of the partition and
  // the new one is the active one.
  lemma RollOverKeepsPartition(db: Db, ending: int, today: Date)
    requires PeriodsOk(db.periods, db.nextPeriod) && Aligned(db) && Expired(db, today)
    requires RollOver(db, ending, today).Ok?
    ensures var after := RollOver(db, ending, today).value;
            && PeriodsOk(after.periods, after.nextPeriod) && Aligned(after) && Disjoint(after)
            && ActivePeriod(after) == Some(db.nextPeriod) && db.nextPeriod in after.periods
            && Covers(after.periods[db.nextPeriod], today)
  {
    var p, after := ActivePeriod(db).value, RollOver(db, ending, today).value;
    var current := NewPeriod(today, db.cycleDay, ending, today);
    var row := current.(active := true);
    assert Covers(row, today) <==> Covers(current, today);
    hide *;
    NewPeriodAligned(today, db.cycleDay, ending, today);
    AlignmentReadsBounds(current, row, db.cycleDay);
    ClosingKeepsPeriods(db, p);
    RollOverParts(db, ending, today);
    PeriodsOkInsert(Closed(db, p), row);
    InsertKeepsCells(Closed(db, p), row);
    TheActiveOne(after, db.nextPeriod);
    AlignedAreDisjoint(after);
  }
}
