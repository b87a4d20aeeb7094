// Concurrent look-ups that create a missing period: the insert runs in a
// savepoint, and the transaction that loses the race looks again
// (app/services/actual.py, app/services/periods.py).
module PeriodRace {
  import opened Wrappers
  import opened Calendar
  import opened Database
  import opened Ledger
  import opened PeriodTheorems

  // ---- Transactions ----

  // Holding: the row is inserted but not committed. Found: the look-up is over.
  datatype Stage = Look | TryInsert | LookAgain | Holding(id: nat, row: Period) | Found(period: Option<nat>) | Failed

  // `first` marks create_first_period, which does not recover from a clash.
  datatype Txn = Txn(date: Date, first: bool, stage: Stage)

  datatype State = State(rows: map<nat, Period>, next: nat, txns: map<nat, Txn>)

  // The two unique indexes of budget_period.
  predicate Clash(a: Period, b: Period) { a.start == b.start || (a.active && b.active) }

  function RowFor(t: Txn, cycleDay: CycleDay, today: Date): Period {
    var row := NewPeriod(t.date, cycleDay, 0, today);
    if t.first then row.(active := true) else row
  }

  // An insert waits for every uncommitted row it clashes with.
  predicate Waits(s: State, tid: nat, cycleDay: CycleDay, today: Date)
    requires tid in s.txns
  {
    s.txns[tid].stage.TryInsert?
    && exists u | u in s.txns :: u != tid && s.txns[u].stage.Holding?
                                 && Clash(s.txns[u].stage.row, RowFor(s.txns[tid], cycleDay, today))
  }

  predicate ClashesWithRows(rows: map<nat, Period>, row: Period) { exists p | p in rows :: Clash(rows[p], row) }

  function Query(rows: map<nat, Period>, next: nat, d: Date): Option<nat> { LatestOf(rows, CoveringIds(rows, d), next) }

  function Advanced(s: State, t: Txn, cycleDay: CycleDay, today: Date): Txn {
    match t.stage
    case Look =>
      var found := Query(s.rows, s.next, t.date);
      t.(stage := if found.Some? then Found(found) else TryInsert)
    case TryInsert =>
      var row := RowFor(t, cycleDay, today);
      if ClashesWithRows(s.rows, row) then t.(stage := if t.first then Failed else LookAgain)
          else t.(stage := Holding(s.next, row))
    case LookAgain => t.(stage := Found(Query(s.rows, s.next, t.date)))
    case Holding(id, _) => t.(stage := Found(Some(id)))
    case Found(_) => t
    case Failed => t
  }

  datatype Event = Start(tid: nat, date: Date, first: bool) | Advance(tid: nat) | Abort(tid: nat)

  function Step(s: State, tid: nat, cycleDay: CycleDay, today: Date): State {
    if tid !in s.txns || Waits(s, tid, cycleDay, today) then s
    else
      var t := s.txns[tid];
      var after := Advanced(s, t, cycleDay, today);
      State(if t.stage.Holding? then s.rows[t.stage.id := t.stage.row] else s.rows,
            if after.stage.Holding? then s.next + 1 else s.next,
            s.txns[tid := after])
  }

  function Happens(s: State, e: Event, cycleDay: CycleDay, today: Date): State {
    match e
    case Start(tid, date, first) =>
      if tid in s.txns then s
      else s.(txns := s.txns[tid := Txn(if first then today else date, first, if first then TryInsert else Look)])
    case Advance(tid) => Step(s, tid, cycleDay, today)
    case Abort(tid) =>
      if tid in s.txns && !s.txns[tid].stage.Found? then s.(txns := s.txns[tid := s.txns[tid].(stage := Failed)]) else s
  }

  function Schedule(s: State, events: seq<Event>, cycleDay: CycleDay, today: Date): State {
    if |events| == 0 then s
    else Happens(Schedule(s, events[..|events| - 1], cycleDay, today), events[|events| - 1], cycleDay, today)
  }

  // ---- The invariant ----

  predicate RowOk(row: Period, cycleDay: CycleDay, today: Date) {
    AlignedRow(row, cycleDay) && (row.active ==> Covers(row, today))
  }

  predicate NoClashes(rows: map<nat, Period>) {
    forall p, q | p in rows && q in rows && p != q :: !Clash(rows[p], rows[q])
  }

  predicate RowsOk(rows: map<nat, Period>, next: nat, cycleDay: CycleDay, today: Date) {
    NoClashes(rows) && forall p | p in rows :: p < next && RowOk(rows[p], cycleDay, today)
  }

  predicate Covered(rows: map<nat, Period>, d: Date) { exists p | p in rows :: Covers(rows[p], d) }

  predicate StageOk(rows: map<nat, Period>, next: nat, t: Txn, cycleDay: CycleDay, today: Date) {
    && (t.first ==> t.date == today)
    && (match t.stage
        case LookAgain => Covered(rows, t.date)
        case Holding(id, row) =>
          && id < next && id !in rows && RowOk(row, cycleDay, today) && Covers(row, t.date)
              && !ClashesWithRows(rows, row)
        case Found(p) => p.Some? && p.value in rows && Covers(rows[p.value], t.date)
        case _ => true)
  }

  predicate HeldApart(a: Txn, b: Txn) {
    a.stage.Holding? && b.stage.Holding? ==> a.stage.id != b.stage.id && !Clash(a.stage.row, b.stage.row)
  }

  predicate TxnsOk(s: State, cycleDay: CycleDay, today: Date) {
    && (forall t | t in s.txns :: StageOk(s.rows, s.next, s.txns[t], cycleDay, today))
    && (forall t, u | t in s.txns && u in s.txns && t != u :: HeldApart(s.txns[t], s.txns[u]))
  }

  predicate Inv(s: State, cycleDay: CycleDay, today: Date) {
    RowsOk(s.rows, s.next, cycleDay, today) && TxnsOk(s, cycleDay, today)
  }

  // ---- One step ----

  lemma QueryFinds(rows: map<nat, Period>, next: nat, d: Date)
    requires forall p | p in rows :: p < next
    ensures Query(rows, next, d).Some? <==> Covered(rows, d)
    ensures var found := Query(rows, next, d);
            found.Some? ==> found.value in rows && Covers(rows[found.value], d)
  {
    assert forall p | p in rows :: p in CoveringIds(rows, d) <==> Covers(rows[p], d);
    hide LatestOf, Within;
  }

  lemma RowForOk(t: Txn, cycleDay: CycleDay, today: Date)
    requires t.first ==> t.date == today
    ensures RowOk(RowFor(t, cycleDay, today), cycleDay, today) && Covers(RowFor(t, cycleDay, today), t.date)
    ensures RowFor(t, cycleDay, today).active <==> Covers(RowFor(t, cycleDay, today), today)
  {
    NewPeriodAligned(t.date, cycleDay, 0, today);
    AlignmentReadsBounds(NewPeriod(t.date, cycleDay, 0, today), RowFor(t, cycleDay, today), cycleDay);
    hide NewPeriod, AlignedRow, Within;
  }

  // The row that wins the race is the very period the loser wanted: a clash
  // with a committed row means that row covers the date.
  lemma ClashMeansCovered(rows: map<nat, Period>, next: nat, row: Period, d: Date, cycleDay: CycleDay, today: Date)
    requires RowsOk(rows, next, cycleDay, today) && RowOk(row, cycleDay, today) && Covers(row, d)
    requires ClashesWithRows(rows, row)
    ensures Covered(rows, d)
  {
    hide AlignedRow, Covers;
    var p :| p in rows && Clash(rows[p], row);
    assert RowOk(rows[p], cycleDay, today);
    if rows[p].start == row.start {
      SameStartSamePeriod(rows[p], row, cycleDay, d);
    } else {
      BothCoverSame(rows[p], row, cycleDay, today, d);
    }
  }

  lemma TryInsertIs(s: State, t: Txn, cycleDay: CycleDay, today: Date)
    requires t.stage.TryInsert?
    ensures var row := RowFor(t, cycleDay, today);
            Advanced(s, t, cycleDay, today)
            == t.(stage := if !ClashesWithRows(s.rows, row) then Holding(s.next, row)
                           else if t.first then Failed else LookAgain)
  {
    hide RowFor, ClashesWithRows;
  }

  lemma NextIsFree(rows: map<nat, Period>, next: nat, cycleDay: CycleDay, today: Date)
    requires RowsOk(rows, next, cycleDay, today)
    ensures next !in rows
  {
    hide RowOk, NoClashes;
  }

  lemma TryInsertOk(s: State, t: Txn, cycleDay: CycleDay, today: Date)
    requires RowsOk(s.rows, s.next, cycleDay, today) && StageOk(s.rows, s.next, t, cycleDay, today)
        && t.stage.TryInsert?
    ensures var after := Advanced(s, t, cycleDay, today);
            StageOk(s.rows, if after.stage.Holding? then s.next + 1 else s.next, after, cycleDay, today)
  {
    var row := RowFor(t, cycleDay, today);
    hide RowFor, ClashesWithRows, Covered, RowOk, Covers, RowsOk, Advanced;
    NextIsFree(s.rows, s.next, cycleDay, today);
    RowForOk(t, cycleDay, today);
    TryInsertIs(s, t, cycleDay, today);
    if ClashesWithRows(s.rows, row) {
      ClashMeansCovered(s.rows, s.next, row, t.date, cycleDay, today);
    }
  }

  lemma LookOk(s: State, t: Txn, cycleDay: CycleDay, today: Date)
    requires RowsOk(s.rows, s.next, cycleDay, today) && StageOk(s.rows, s.next, t, cycleDay, today)
    requires t.stage.Look? || t.stage.LookAgain?
    ensures StageOk(s.rows, s.next, Advanced(s, t, cycleDay, today), cycleDay, today)
  {
    QueryFinds(s.rows, s.next, t.date);
    hide RowFor, Query, ClashesWithRows, Covered, RowOk, Covers, RowsOk;
  }

  lemma AdvancedStageOk(s: State, t: Txn, cycleDay: CycleDay, today: Date)
    requires RowsOk(s.rows, s.next, cycleDay, today) && StageOk(s.rows, s.next, t, cycleDay, today) && !t.stage.Holding?
    ensures var after := Advanced(s, t, cycleDay, today);
            StageOk(s.rows, if after.stage.Holding? then s.next + 1 else s.next, after, cycleDay, today)
  {
    hide StageOk, RowsOk, RowFor, Query, ClashesWithRows;
    if t.stage.TryInsert? {
      TryInsertOk(s, t, cycleDay, today);
    } else if t.stage.Look? || t.stage.LookAgain? {
      LookOk(s, t, cycleDay, today);
    }
  }

  lemma AdvancedApart(s: State, tid: nat, u: nat, cycleDay: CycleDay, today: Date)
    requires TxnsOk(s, cycleDay, today) && tid in s.txns && u in s.txns && u != tid
    requires !Waits(s, tid, cycleDay, today) && !s.txns[tid].stage.Holding?
    ensures HeldApart(Advanced(s, s.txns[tid], cycleDay, today), s.txns[u])
    ensures HeldApart(s.txns[u], Advanced(s, s.txns[tid], cycleDay, today))
  {
    assert StageOk(s.rows, s.next, s.txns[u], cycleDay, today);
    hide RowFor, Query, ClashesWithRows, Covered, RowOk, Covers, TxnsOk;
  }

  lemma LaterStageOk(rows: map<nat, Period>, next: nat, next': nat, t: Txn, cycleDay: CycleDay, today: Date)
    requires StageOk(rows, next, t, cycleDay, today) && next <= next'
    ensures StageOk(rows, next', t, cycleDay, today)
  {
    hide ClashesWithRows, Covered, RowOk, Covers;
  }

  lemma StepIs(s: State, tid: nat, cycleDay: CycleDay, today: Date)
    requires tid in s.txns && !Waits(s, tid, cycleDay, today)
    ensures var t := s.txns[tid];
            var after := Advanced(s, t, cycleDay, today);
            Step(s, tid, cycleDay, today)
            == State(if t.stage.Holding? then s.rows[t.stage.id := t.stage.row] else s.rows,
                     if after.stage.Holding? then s.next + 1 else s.next, s.txns[tid := after])
  {
    hide Advanced, Waits;
  }

  lemma LaterRowsOk(rows: map<nat, Period>, next: nat, next': nat, cycleDay: CycleDay, today: Date)
    requires RowsOk(rows, next, cycleDay, today) && next <= next'
    ensures RowsOk(rows, next', cycleDay, today)
  {
    hide NoClashes, RowOk;
  }

  lemma InvGives(s: State, tid: nat, cycleDay: CycleDay, today: Date)
    requires Inv(s, cycleDay, today) && tid in s.txns
    ensures RowsOk(s.rows, s.next, cycleDay, today) && TxnsOk(s, cycleDay, today)
    ensures StageOk(s.rows, s.next, s.txns[tid], cycleDay, today)
    ensures forall u | u in s.txns && u != tid :: HeldApart(s.txns[tid], s.txns[u])
  {
    hide RowsOk, StageOk, HeldApart;
  }

  // The invariant after one transaction changed.
  lemma Assemble(s: State, s': State, tid: nat, cycleDay: CycleDay, today: Date)
    requires TxnsOk(s, cycleDay, today) && tid in s.txns && tid in s'.txns && s'.txns == s.txns[tid := s'.txns[tid]]
    requires RowsOk(s'.rows, s'.next, cycleDay, today) && StageOk(s'.rows, s'.next, s'.txns[tid], cycleDay, today)
    requires forall u | u in s.txns && u != tid ::
               && HeldApart(s'.txns[tid], s.txns[u]) && HeldApart(s.txns[u], s'.txns[tid])
               && StageOk(s'.rows, s'.next, s.txns[u], cycleDay, today)
    ensures Inv(s', cycleDay, today)
  {
    hide RowsOk, StageOk, HeldApart;
  }

  lemma AdvancedOk(s: State, tid: nat, cycleDay: CycleDay, today: Date)
    requires Inv(s, cycleDay, today) && tid in s.txns && !Waits(s, tid, cycleDay, today) && !s.txns[tid].stage.Holding?
    ensures Inv(Step(s, tid, cycleDay, today), cycleDay, today)
  {
    hide *;
    var t := s.txns[tid];
    var after := Advanced(s, t, cycleDay, today);
    var next := if after.stage.Holding? then s.next + 1 else s.next;
    InvGives(s, tid, cycleDay, today);
    AdvancedStageOk(s, t, cycleDay, today);
    LaterRowsOk(s.rows, s.next, next, cycleDay, today);
    forall u | u in s.txns && u != tid
      ensures HeldApart(after, s.txns[u]) && HeldApart(s.txns[u], after)
          && StageOk(s.rows, next, s.txns[u], cycleDay, today)
    {
      AdvancedApart(s, tid, u, cycleDay, today);
      InvGives(s, u, cycleDay, today);
      LaterStageOk(s.rows, s.next, next, s.txns[u], cycleDay, today);
    }
    Assemble(s, State(s.rows, next, s.txns[tid := after]), tid, cycleDay, today);
    StepIs(s, tid, cycleDay, today);
  }

  // A commit of one held row.
  lemma CommitRowsOk(rows: map<nat, Period>, next: nat, t: Txn, cycleDay: CycleDay, today: Date)
    requires RowsOk(rows, next, cycleDay, today) && StageOk(rows, next, t, cycleDay, today) && t.stage.Holding?
    ensures RowsOk(rows[t.stage.id := t.stage.row], next, cycleDay, today)
  {
    hide RowOk, Covers;
  }

  lemma CommitKeepsStage(rows: map<nat, Period>, next: nat, t: Txn, u: Txn, cycleDay: CycleDay, today: Date)
    requires StageOk(rows, next, t, cycleDay, today) && StageOk(rows, next, u, cycleDay, today)
    requires t.stage.Holding? && HeldApart(t, u)
    ensures StageOk(rows[t.stage.id := t.stage.row], next, u, cycleDay, today)
  {
    hide RowOk, Covers;
    if u.stage.LookAgain? {
      var p :| p in rows && Covers(rows[p], u.date);
      assert p != t.stage.id;
      assert p in rows[t.stage.id := t.stage.row];
    }
  }

  lemma HolderFinds(s: State, t: Txn, rows: map<nat, Period>, cycleDay: CycleDay, today: Date)
    requires t.stage.Holding? && rows == s.rows[t.stage.id := t.stage.row]
        && StageOk(s.rows, s.next, t, cycleDay, today)
    ensures StageOk(rows, s.next, Advanced(s, t, cycleDay, today), cycleDay, today)
        && Advanced(s, t, cycleDay, today).stage.Found?
  {
    hide RowOk, Covers, ClashesWithRows;
  }

  lemma FinishedIsApart(a: Txn, b: Txn)
    requires a.stage.Found?
    ensures HeldApart(a, b) && HeldApart(b, a)
  {
  }

  lemma HolderNeverWaits(s: State, tid: nat, cycleDay: CycleDay, today: Date)
    requires tid in s.txns && s.txns[tid].stage.Holding?
    ensures !Waits(s, tid, cycleDay, today)
  {
  }

  lemma CommittedOk(s: State, tid: nat, cycleDay: CycleDay, today: Date)
    requires Inv(s, cycleDay, today) && tid in s.txns && s.txns[tid].stage.Holding?
    ensures Inv(Step(s, tid, cycleDay, today), cycleDay, today)
  {
    hide *;
    var t := s.txns[tid];
    var rows := s.rows[t.stage.id := t.stage.row];
    InvGives(s, tid, cycleDay, today);
    CommitRowsOk(s.rows, s.next, t, cycleDay, today);
    HolderFinds(s, t, rows, cycleDay, today);
    var after := Advanced(s, t, cycleDay, today);
    forall u | u in s.txns && u != tid
      ensures HeldApart(after, s.txns[u]) && HeldApart(s.txns[u], after)
          && StageOk(rows, s.next, s.txns[u], cycleDay, today)
    {
      InvGives(s, u, cycleDay, today);
      FinishedIsApart(after, s.txns[u]);
      CommitKeepsStage(s.rows, s.next, t, s.txns[u], cycleDay, today);
    }
    Assemble(s, State(rows, s.next, s.txns[tid := after]), tid, cycleDay, today);
    HolderNeverWaits(s, tid, cycleDay, today);
    StepIs(s, tid, cycleDay, today);
  }

  lemma EventOk(s: State, e: Event, cycleDay: CycleDay, today: Date)
    requires Inv(s, cycleDay, today)
    ensures Inv(Happens(s, e, cycleDay, today), cycleDay, today)
  {
    hide RowsOk, Covered, RowOk, Covers, ClashesWithRows, Clash;
    match e
    case Start(_, _, _) =>
    case Abort(_) =>
    case Advance(tid) =>
      if tid in s.txns && !Waits(s, tid, cycleDay, today) {
        if s.txns[tid].stage.Holding? {
          CommittedOk(s, tid, cycleDay, today);
        } else {
          AdvancedOk(s, tid, cycleDay, today);
        }
      }
      hide Step, Inv, Waits;
  }

  // ---- Every schedule ----

  lemma {:induction false} ScheduleOk(s: State, events: seq<Event>, cycleDay: CycleDay, today: Date)
    requires Inv(s, cycleDay, today)
    ensures Inv(Schedule(s, events, cycleDay, today), cycleDay, today)
  {
    hide Inv, Happens;
    if |events| == 0 {
    } else {
      ScheduleOk(s, events[..|events| - 1], cycleDay, today);
      EventOk(Schedule(s, events[..|events| - 1], cycleDay, today), events[|events| - 1], cycleDay, today);
    }
  }

  // Committed rows that never clash share no date.
  lemma NoDateTwice(rows: map<nat, Period>, next: nat, cycleDay: CycleDay, today: Date, p: nat, q: nat, d: Date)
    requires RowsOk(rows, next, cycleDay, today) && p in rows && q in rows && Covers(rows[p], d) && Covers(rows[q], d)
    ensures p == q
  {
    assert RowOk(rows[p], cycleDay, today) && RowOk(rows[q], cycleDay, today);
    hide AlignedRow, Covers;
    BothCoverSame(rows[p], rows[q], cycleDay, d, d);
  }

  // On every schedule with a fixed cycle day, when the active period (if any)
  // contains today: committed periods are disjoint, at most one is active, and
  // every finished look-up, winner or loser of a race, returned a committed
  // period that contains its date.
  lemma RacesAreHarmless(s: State, events: seq<Event>, cycleDay: CycleDay, today: Date)
    requires RowsOk(s.rows, s.next, cycleDay, today) && s.txns == map[]
    ensures var end := Schedule(s, events, cycleDay, today);
            && (forall p, q | p in end.rows && q in end.rows && end.rows[p].active && end.rows[q].active :: p == q)
            && (forall p, q, d: Date | p in end.rows && q in end.rows && Covers(end.rows[p], d)
                && Covers(end.rows[q], d) :: p == q)
            && (forall t | t in end.txns && end.txns[t].stage.Found? ::
                  && end.txns[t].stage.period.Some? && end.txns[t].stage.period.value in end.rows
                  && Covers(end.rows[end.txns[t].stage.period.value], end.txns[t].date))
  {
    var end := Schedule(s, events, cycleDay, today);
    ScheduleOk(s, events, cycleDay, today);
    assert forall t | t in end.txns :: StageOk(end.rows, end.next, end.txns[t], cycleDay, today);
    forall p, q, d: Date | p in end.rows && q in end.rows && Covers(end.rows[p], d) && Covers(end.rows[q], d)
      ensures p == q
    {
      NoDateTwice(end.rows, end.next, cycleDay, today, p, q, d);
    }
    hide Schedule, Covers, RowOk, Covered, TxnsOk;
  }

  // A waiting insert waits for a transaction that can commit.
  lemma WaitsForACommitter(s: State, tid: nat, cycleDay: CycleDay, today: Date) returns (holder: nat)
    requires tid in s.txns && Waits(s, tid, cycleDay, today)
    ensures holder in s.txns && !Waits(s, holder, cycleDay, today)
    ensures Step(s, holder, cycleDay, today).txns[holder].stage.Found?
  {
    hide Clash;
    holder :| holder in s.txns && holder != tid && s.txns[holder].stage.Holding?;
  }
}
