// Every schedule of the posting protocol against its commits run one after
// another (app/services/subscriptions.py).
module SerialTheorems {
  import opened Wrappers
  import opened PostingProtocol
  import opened ProtocolTheorems

  // ---- A request served alone ----

  predicate Unpaid(t: Tables, o: nat) { o in t.occs && t.occs[o].posted.None? }

  predicate Known(t: Tables, origin: Origin) {
    match origin
    case OfOccurrence(o) => o in t.occs
    case OfSubscription(x) => x in t.subs
  }

  predicate InBounds(t: Tables, cfg: Config, o: nat, date: int)
    requires o in t.occs
  {
    var p := t.occs[o].period;
    p in cfg.bounds && cfg.bounds[p].0 <= date <= cfg.bounds[p].1
  }

  // One new transaction for this origin, moving its account by the amount.
  predicate Books(t: Tables, cfg: Config, request: Request, origin: Origin, effect: Effect) {
    && Known(t, origin) && effect.Book? && effect.entry.id !in t.facts
    && effect.entry.fact == FactOf(t, cfg, request, origin)
    && (effect.entry.fact.account.Some? ==>
          && effect.entry.fact.account.value in t.accounts
          && effect.balance == t.accounts[effect.entry.fact.account.value] + effect.entry.fact.delta)
  }

  // What a request may commit when no other transaction is under way; which of
  // the unpaid occurrences a posting takes is the matter of Earliest.
  predicate Alone(t: Tables, cfg: Config, request: Request, effect: Effect) {
    match request
    case Skip(o) => Unpaid(t, o) && effect == Remove(o)
    case Postpone(o, date) => Unpaid(t, o) && InBounds(t, cfg, o, date) && effect == Move(o, date)
    case Pay(o, _) => Unpaid(t, o) && Books(t, cfg, request, OfOccurrence(o), effect)
    case Post(x) =>
      && x in t.subs && t.subs[x].active && effect.Book?
      && (match effect.entry.fact.origin
          case OfOccurrence(o) =>
            o in OccsOf(t, cfg, x) && Unpaid(t, o) && Books(t, cfg, request, OfOccurrence(o), effect)
          case OfSubscription(y) =>
            && x == y && OccsOf(t, cfg, x) == {} && t.subs[x].posted.None? && t.subs[x].account.Some?
            && Books(t, cfg, request, OfSubscription(x), effect))
  }

  // The earliest unpaid occurrence of the period.
  predicate Earliest(t: Tables, cfg: Config, request: Request, origin: Origin) {
    request.Post? && origin.OfOccurrence? && origin.occ in t.occs ==>
      forall u | u in OccsOf(t, cfg, request.sub) && Unpaid(t, u) :: ComesFirst(t, origin.occ, u)
  }

  predicate TakesEarliest(t: Tables, cfg: Config, request: Request, effect: Effect) {
    effect.Book? ==> Earliest(t, cfg, request, effect.entry.fact.origin)
  }

  // ---- What a transaction in flight knows of its request ----

  // Each occurrence of the period is locked or still to be locked.
  ghost predicate Covered(t: Tables, cfg: Config, x: nat, todo: seq<nat>, held: set<Resource>) {
    && (forall o | o in OccsOf(t, cfg, x) :: o in todo || OccRow(o) in held)
    && (forall o | OccRow(o) in held :: o in OccsOf(t, cfg, x))
    && (forall k | 0 <= k < |todo| && todo[k] in t.occs :: todo[k] in OccsOf(t, cfg, x))
  }

  predicate Chosen(t: Tables, cfg: Config, request: Request, origin: Origin) {
    match request
    case Post(x) =>
      && x in t.subs && t.subs[x].active
      && (match origin
          case OfOccurrence(o) => o in OccsOf(t, cfg, x)
          case OfSubscription(y) => x == y && OccsOf(t, cfg, x) == {} && t.subs[x].account.Some?)
    case Pay(o, _) => origin == OfOccurrence(o)
    case _ => false
  }

  ghost predicate Knows(t: Tables, cfg: Config, txn: Txn) {
    match txn.stage
    case List => txn.request.Post? && txn.request.sub in t.subs && t.subs[txn.request.sub].active
    case WantNext(todo, due, found) =>
      && txn.request.Post? && txn.request.sub in t.subs && t.subs[txn.request.sub].active
      && Covered(t, cfg, txn.request.sub, todo, txn.held)
      && (due.Some? ==> OccRow(due.value) in txn.held)
      && (!found ==> due.None? && forall o :: OccRow(o) !in txn.held)
    case Insert(origin) => Known(t, origin) && Chosen(t, cfg, txn.request, origin)
    case Credit(e) =>
      && Known(t, e.fact.origin) && Chosen(t, cfg, txn.request, e.fact.origin)
      && e.fact == FactOf(t, cfg, txn.request, e.fact.origin)
    case Commit(effect) =>
      (match effect
       case Book(e, _) =>
         && Known(t, e.fact.origin) && Chosen(t, cfg, txn.request, e.fact.origin)
         && e.fact == FactOf(t, cfg, txn.request, e.fact.origin)
       case Remove(o) => txn.request == Skip(o)
       case Move(o, date) => txn.request == Postpone(o, date) && o in t.occs && InBounds(t, cfg, o, date))
    case _ => true
  }

  ghost predicate AllKnow(t: Tables, cfg: Config, txns: map<nat, Txn>) {
    forall tid | tid in txns :: Knows(t, cfg, txns[tid])
  }

  // ---- One step keeps the knowledge ----

  lemma LockNextKnows(t: Tables, cfg: Config, txn: Txn)
    requires txn.stage.WantNext? && |txn.stage.todo| > 0 && StageOk(t, txn) && HoldsRows(t, txn) && Knows(t, cfg, txn)
    ensures Knows(t, cfg, LockNext(t, txn, txn.stage.todo, txn.stage.due, txn.stage.found))
  {
    hide StageOk, HoldsRows;
    var todo, x := txn.stage.todo, txn.request.sub;
    var after := LockNext(t, txn, todo, txn.stage.due, txn.stage.found);
    assert forall o | o in todo :: o == todo[0] || o in todo[1..];
    if todo[0] in t.occs {
      assert todo[0] in OccsOf(t, cfg, x);
    }
    hide OccsOf;
    assert Covered(t, cfg, x, todo[1..], after.held);
  }

  lemma ChooseKnows(t: Tables, cfg: Config, txn: Txn)
    requires txn.stage.WantNext? && |txn.stage.todo| == 0 && HoldsRows(t, txn) && Knows(t, cfg, txn)
    ensures Knows(t, cfg, Choose(t, txn, txn.stage.due, txn.stage.found))
  {
    if txn.stage.due.None? && !txn.stage.found {
      assert OccsOf(t, cfg, txn.request.sub) == {};
    }
    hide OccsOf, HoldsRows;
  }

  lemma ListKnows(t: Tables, cfg: Config, txn: Txn, order: seq<nat>)
    requires txn.stage.List? && StageOk(t, txn) && Knows(t, cfg, txn) && Lists(t, cfg, txn.request.sub, order)
    ensures Knows(t, cfg, txn.(stage := WantNext(order, None, false)))
  {
    hide OccsOf, InOrder;
  }

  lemma LocalKnows(t: Tables, cfg: Config, next: nat, txn: Txn, order: seq<nat>)
    requires StageOk(t, txn) && HoldsRows(t, txn) && Knows(t, cfg, txn)
    ensures Knows(t, cfg, Local(t, cfg, next, txn, order))
  {
    match txn.stage
    case List =>
      if Lists(t, cfg, txn.request.sub, order) {
        ListKnows(t, cfg, txn, order);
      }
      hide StageOk, HoldsRows, Covered, Lists;
    case WantNext(todo, _, _) =>
      if |todo| > 0 {
        LockNextKnows(t, cfg, txn);
      } else {
        ChooseKnows(t, cfg, txn);
      }
      hide StageOk, HoldsRows, Covered, LockNext, Choose;
    case Insert(_) => hide HoldsRows, Covered, OccsOf;
    case WantOcc(_) => hide HoldsRows, Covered, OccsOf;
    case _ => hide HoldsRows, Covered, OccsOf;
  }

  // ---- A commit of another transaction keeps it ----

  // Columns no commit changes.
  ghost predicate SameColumns(t: Tables, t': Tables) {
    && (forall o | o in t'.occs ::
          && o in t.occs && t'.occs[o].sub == t.occs[o].sub && t'.occs[o].period == t.occs[o].period
          && t'.occs[o].delta == t.occs[o].delta)
    && (forall x | x in t'.subs ::
          && x in t.subs && t'.subs[x].active == t.subs[x].active && t'.subs[x].account == t.subs[x].account
          && t'.subs[x].delta == t.subs[x].delta)
  }

  lemma CommitKeepsColumns(t: Tables, txn: Txn)
    requires StageOk(t, txn) && txn.stage.Commit?
    ensures SameColumns(t, Apply(t, txn.stage.effect))
  {
    hide HoldsRows;
  }

  lemma FactSurvives(t: Tables, t': Tables, cfg: Config, request: Request, origin: Origin)
    requires SameColumns(t, t') && t'.subs.Keys == t.subs.Keys && Known(t, origin) && Known(t', origin)
    ensures FactOf(t', cfg, request, origin) == FactOf(t, cfg, request, origin)
  {
  }

  lemma OccsShrink(t: Tables, t': Tables, cfg: Config, x: nat)
    requires SameColumns(t, t')
    ensures forall o :: o in OccsOf(t', cfg, x) <==> o in OccsOf(t, cfg, x) && o in t'.occs
  {
  }

  lemma ChoiceSurvives(t: Tables, t': Tables, cfg: Config, txn: Txn, held: set<Resource>, origin: Origin)
    requires Known(t, origin) && Chosen(t, cfg, txn.request, origin) && Claims(t, txn.held, origin)
    requires ChangesOnly(t, t', held) && SameColumns(t, t') && txn.held !! held
    ensures Known(t', origin) && Chosen(t', cfg, txn.request, origin)
    ensures FactOf(t', cfg, txn.request, origin) == FactOf(t, cfg, txn.request, origin)
  {
    assert Known(t', origin);
    FactSurvives(t, t', cfg, txn.request, origin);
    if txn.request.Post? {
      OccsShrink(t, t', cfg, txn.request.sub);
    }
    hide OccsOf, FactOf;
  }

  lemma KnowledgeSurvives(t: Tables, t': Tables, cfg: Config, txn: Txn, held: set<Resource>)
    requires StageOk(t, txn) && HoldsRows(t, txn) && Knows(t, cfg, txn)
    requires ChangesOnly(t, t', held) && SameColumns(t, t') && txn.held !! held
    ensures Knows(t', cfg, txn)
  {
    match txn.stage
    case WantNext(_, _, _) =>
      OccsShrink(t, t', cfg, txn.request.sub);
      hide OccsOf, HoldsRows;
    case Insert(origin) =>
      ChoiceSurvives(t, t', cfg, txn, held, origin);
      hide Chosen, Known, FactOf, HoldsRows, ChangesOnly, SameColumns;
    case Credit(e) =>
      ChoiceSurvives(t, t', cfg, txn, held, e.fact.origin);
      hide Chosen, Known, FactOf, HoldsRows, ChangesOnly, SameColumns;
    case Commit(effect) =>
      if effect.Book? {
        ChoiceSurvives(t, t', cfg, txn, held, effect.entry.fact.origin);
      }
      hide Chosen, Known, FactOf, HoldsRows;
    case _ => hide HoldsRows;
  }

  // ---- Commits ----

  // A commit does what its request does alone, on the rows as they are then.
  lemma CommitIsAlone(t: Tables, cfg: Config, txn: Txn)
    requires StageOk(t, txn) && Knows(t, cfg, txn) && txn.stage.Commit?
    requires Pending(txn).Some? ==> Pending(txn).value !in t.facts
    ensures Alone(t, cfg, txn.request, txn.stage.effect)
  {
    match txn.stage.effect
    case Book(e, balance) =>
      assert Pending(txn) == Some(e.id);
      BookClaims(t, txn, e, balance);
      assert Claims(t, txn.held, e.fact.origin);
      hide OccsOf, FactOf, StageOk;
    case Remove(_) =>
    case Move(_, _) =>
  }

  datatype Committed = Committed(request: Request, effect: Effect)

  // What an event commits, if anything.
  function CommitOf(s: State, e: Event): seq<Committed> {
    if e.Advance? && e.tid in s.txns && !Blocked(s.txns, e.tid) && s.txns[e.tid].stage.Commit?
    then [Committed(s.txns[e.tid].request, s.txns[e.tid].stage.effect)] else []
  }

  // The commits of a schedule, in the order they happen.
  function Commits(s: State, cfg: Config, events: seq<Event>): seq<Committed> {
    if |events| == 0 then []
    else
      var rest := events[..|events| - 1];
      Commits(s, cfg, rest) + CommitOf(Schedule(s, cfg, rest), events[|events| - 1])
  }

  // The tables after the first n of these, one after another.
  function After(t: Tables, log: seq<Committed>, n: nat): Tables
    requires n <= |log|
  {
    if n == 0 then t else Apply(After(t, log, n - 1), log[n - 1].effect)
  }

  // Each is what its request does alone on the tables the ones before it left.
  predicate OneByOne(t: Tables, cfg: Config, log: seq<Committed>) {
    forall k | 0 <= k < |log| :: Alone(After(t, log, k), cfg, log[k].request, log[k].effect)
  }

  lemma {:induction false} AfterPrefix(t: Tables, log: seq<Committed>, more: seq<Committed>, n: nat)
    requires n <= |log|
    ensures After(t, log + more, n) == After(t, log, n)
  {
    if n == 0 {
    } else {
      AfterPrefix(t, log, more, n - 1);
    }
  }

  lemma OneMore(t: Tables, cfg: Config, log: seq<Committed>, c: Committed)
    requires OneByOne(t, cfg, log) && Alone(After(t, log, |log|), cfg, c.request, c.effect)
    ensures OneByOne(t, cfg, log + [c])
    ensures After(t, log + [c], |log| + 1) == Apply(After(t, log, |log|), c.effect)
  {
    hide Alone, Apply;
    forall k | 0 <= k < |log| + 1
      ensures After(t, log + [c], k) == After(t, log, k)
    {
      AfterPrefix(t, log, [c], k);
    }
  }

  // ---- Every schedule ----

  lemma FinishedKnows(t: Tables, cfg: Config, txn: Txn)
    ensures Knows(t, cfg, Finish(txn))
  {
  }

  lemma OthersKeepKnowing(t: Tables, t': Tables, cfg: Config, txns: map<nat, Txn>, tid: nat)
    requires TxnsOk(t, txns) && AllKnow(t, cfg, txns) && Exclusive(txns) && tid in txns
    requires ChangesOnly(t, t', txns[tid].held) && SameColumns(t, t')
    ensures AllKnow(t', cfg, txns[tid := Finish(txns[tid])])
  {
    hide Knows, StageOk, HoldsRows, ChangesOnly, SameColumns;
    assert Knows(t', cfg, Finish(txns[tid])) by {
      FinishedKnows(t', cfg, txns[tid]);
    }
    forall u | u in txns && u != tid
      ensures Knows(t', cfg, txns[u])
    {
      assert StageOk(t, txns[u]) && HoldsRows(t, txns[u]) && Knows(t, cfg, txns[u]);
      KnowledgeSurvives(t, t', cfg, txns[u], txns[tid].held);
    }
  }

  lemma StepKeepsKnowing(s: State, cfg: Config, tid: nat, order: seq<nat>, base: map<nat, int>)
    requires Inv(s, base) && AllKnow(s.tables, cfg, s.txns) && tid in s.txns && !Blocked(s.txns, tid)
    ensures var after := Step(s, cfg, tid, order); AllKnow(after.tables, cfg, after.txns)
  {
    InvGives(s, base, tid);
    var t := s.txns[tid];
    if t.stage.Commit? {
      CommitChangesOnly(s.tables, t);
      CommitKeepsColumns(s.tables, t);
      OthersKeepKnowing(s.tables, Apply(s.tables, t.stage.effect), cfg, s.txns, tid);
      hide Inv, Blocked, Apply, Knows, StageOk, HoldsRows, TxnsOk, Exclusive, ChangesOnly, SameColumns;
    } else {
      LocalStepIs(s, cfg, tid, order);
      LocalKnows(s.tables, cfg, s.next, t, order);
      hide Inv, Blocked, Step, Local, Knows, StageOk, HoldsRows, TxnsOk, Exclusive;
    }
  }

  lemma EventKeepsKnowing(s: State, cfg: Config, e: Event, base: map<nat, int>)
    requires Inv(s, base) && AllKnow(s.tables, cfg, s.txns)
    ensures var after := Happens(s, cfg, e); AllKnow(after.tables, cfg, after.txns)
  {
    match e
    case Advance(tid, order) =>
      hide Inv, Knows, Step, Blocked;
      if tid in s.txns && !Blocked(s.txns, tid) {
        StepKeepsKnowing(s, cfg, tid, order, base);
      } else {
        BlockedStays(s, cfg, tid, order);
      }
    case Start(tid, request) => hide Inv;
    case Abort(tid) =>
      if tid in s.txns {
        FinishedKnows(s.tables, cfg, s.txns[tid]);
      }
      hide Inv, Knows, Finish;
  }

  lemma EventCommits(s: State, cfg: Config, e: Event, base: map<nat, int>)
    requires Inv(s, base) && AllKnow(s.tables, cfg, s.txns)
    ensures var c := CommitOf(s, e);
            if c == [] then Happens(s, cfg, e).tables == s.tables
            else |c| == 1 && Alone(s.tables, cfg, c[0].request, c[0].effect)
                 && Happens(s, cfg, e).tables == Apply(s.tables, c[0].effect)
  {
    if CommitOf(s, e) != [] {
      InvGives(s, base, e.tid);
      CommitIsAlone(s.tables, cfg, s.txns[e.tid]);
    }
    hide Inv, AllKnow, Blocked, Apply, Local, Alone;
  }

  lemma NoneCommitted(t: Tables, cfg: Config)
    ensures OneByOne(t, cfg, [])
  {
  }

  lemma {:induction false} ScheduleIsSerial(s: State, cfg: Config, events: seq<Event>, base: map<nat, int>)
    requires Inv(s, base) && AllKnow(s.tables, cfg, s.txns)
    ensures var end, log := Schedule(s, cfg, events), Commits(s, cfg, events);
            && AllKnow(end.tables, cfg, end.txns) && OneByOne(s.tables, cfg, log)
            && end.tables == After(s.tables, log, |log|)
  {
    hide Inv, AllKnow, Happens, CommitOf, OneByOne, Alone, Apply;
    if |events| == 0 {
      NoneCommitted(s.tables, cfg);
    } else {
      var rest, e := events[..|events| - 1], events[|events| - 1];
      var before, log := Schedule(s, cfg, rest), Commits(s, cfg, rest);
      ScheduleIsSerial(s, cfg, rest, base);
      ScheduleKeepsInv(s, cfg, rest, base);
      EventKeepsKnowing(before, cfg, e, base);
      EventCommits(before, cfg, e, base);
      var c := CommitOf(before, e);
      if c == [] {
        assert log + c == log;
      } else {
        assert c == [c[0]];
        OneMore(s.tables, cfg, log, c[0]);
      }
    }
  }

  // On every schedule, with whatever interleaving and aborts, the tables are
  // those of the committed requests served one after another in the order they
  // committed; a posting alone pays some unpaid occurrence of the period.
  lemma EveryScheduleIsSerial(s: State, cfg: Config, events: seq<Event>, base: map<nat, int>)
    requires Paired(s.tables) && Balanced(s.tables, s.next, base) && s.skipped !! s.tables.occs.Keys && s.txns == map[]
    ensures var log := Commits(s, cfg, events);
            OneByOne(s.tables, cfg, log) && Schedule(s, cfg, events).tables == After(s.tables, log, |log|)
  {
    QuietStart(s, base);
    assert AllKnow(s.tables, cfg, s.txns);
    hide *;
    ScheduleIsSerial(s, cfg, events, base);
  }

  // ---- Which occurrence a posting pays ----

  predicate NoPostponement(events: seq<Event>) {
    forall k | 0 <= k < |events| :: !(events[k].Start? && events[k].request.Postpone?)
  }

  predicate StillInOrder(t: Tables, todo: seq<nat>) {
    forall i, j | 0 <= i < j < |todo| && todo[i] in t.occs && todo[j] in t.occs :: ComesFirst(t, todo[i], todo[j])
  }

  // The due one comes before every unpaid row locked or still to be locked.
  ghost predicate DueIsFirst(t: Tables, todo: seq<nat>, held: set<Resource>, due: nat) {
    && due in t.occs
    && (forall o | OccRow(o) in held && Unpaid(t, o) :: ComesFirst(t, due, o))
    && (forall k | 0 <= k < |todo| && todo[k] in t.occs :: ComesFirst(t, due, todo[k]))
  }

  // With no postponement about, what was read in order is still in order.
  ghost predicate Ordered(t: Tables, cfg: Config, txn: Txn) {
    && !txn.request.Postpone?
    && match txn.stage
       case WantNext(todo, due, _) =>
         && StillInOrder(t, todo)
         && (due.None? ==> forall o | OccRow(o) in txn.held :: !Unpaid(t, o))
         && (due.Some? ==> DueIsFirst(t, todo, txn.held, due.value))
       case Insert(origin) => Earliest(t, cfg, txn.request, origin)
       case Credit(e) => Earliest(t, cfg, txn.request, e.fact.origin)
       case Commit(effect) => TakesEarliest(t, cfg, txn.request, effect)
       case _ => true
  }

  ghost predicate AllOrdered(t: Tables, cfg: Config, txns: map<nat, Txn>) {
    forall tid | tid in txns :: Ordered(t, cfg, txns[tid])
  }

  lemma LockNextOrdered(t: Tables, cfg: Config, txn: Txn)
    requires txn.stage.WantNext? && |txn.stage.todo| > 0 && Ordered(t, cfg, txn)
    ensures Ordered(t, cfg, LockNext(t, txn, txn.stage.todo, txn.stage.due, txn.stage.found))
  {
    var todo, due := txn.stage.todo, txn.stage.due;
    var after := LockNext(t, txn, todo, due, txn.stage.found);
    assert StillInOrder(t, todo[1..]);
    if todo[0] in t.occs && due.None? && Unpaid(t, todo[0]) {
      assert forall k | 0 <= k < |todo[1..]| :: todo[1..][k] == todo[k + 1];
      assert DueIsFirst(t, todo[1..], after.held, todo[0]);
    }
  }

  lemma ChooseOrdered(t: Tables, cfg: Config, txn: Txn)
    requires txn.stage.WantNext? && |txn.stage.todo| == 0 && Knows(t, cfg, txn) && Ordered(t, cfg, txn)
    ensures Ordered(t, cfg, Choose(t, txn, txn.stage.due, txn.stage.found))
  {
    hide OccsOf, ComesFirst;
  }

  lemma LocalOrdered(t: Tables, cfg: Config, next: nat, txn: Txn, order: seq<nat>)
    requires StageOk(t, txn) && Knows(t, cfg, txn) && Ordered(t, cfg, txn)
    ensures Ordered(t, cfg, Local(t, cfg, next, txn, order))
  {
    match txn.stage
    case WantNext(todo, _, _) =>
      if |todo| > 0 {
        LockNextOrdered(t, cfg, txn);
      } else {
        ChooseOrdered(t, cfg, txn);
      }
      hide StageOk, Knows, LockNext, Choose, StillInOrder, DueIsFirst, Earliest;
    case _ => hide Knows, OccsOf, ComesFirst;
  }

  // No date changes, and what is unpaid was unpaid before.
  predicate SameDates(t: Tables, t': Tables) {
    && (forall o | o in t'.occs :: o in t.occs && t'.occs[o].date == t.occs[o].date)
    && (forall o | o in t'.occs && t'.occs[o].posted.None? :: t.occs[o].posted.None?)
  }

  lemma CommitKeepsDates(t: Tables, txn: Txn)
    requires StageOk(t, txn) && txn.stage.Commit? && !txn.stage.effect.Move?
    ensures SameDates(t, Apply(t, txn.stage.effect))
  {
  }

  lemma EarliestSurvives(t: Tables, t': Tables, cfg: Config, request: Request, origin: Origin)
    requires Earliest(t, cfg, request, origin) && SameColumns(t, t') && SameDates(t, t')
    ensures Earliest(t', cfg, request, origin)
  {
    if request.Post? {
      OccsShrink(t, t', cfg, request.sub);
    }
    hide OccsOf;
  }

  lemma OrderSurvives(t: Tables, t': Tables, cfg: Config, txn: Txn, held: set<Resource>)
    requires StageOk(t, txn) && HoldsRows(t, txn) && Ordered(t, cfg, txn)
    requires ChangesOnly(t, t', held) && SameColumns(t, t') && SameDates(t, t') && txn.held !! held
    ensures Ordered(t', cfg, txn)
  {
    match txn.stage
    case WantNext(_, _, _) => hide OccsOf, SameColumns;
    case Insert(origin) =>
      EarliestSurvives(t, t', cfg, txn.request, origin);
      hide Earliest, StageOk, HoldsRows;
    case Credit(e) =>
      EarliestSurvives(t, t', cfg, txn.request, e.fact.origin);
      hide Earliest, StageOk, HoldsRows;
    case Commit(effect) =>
      if effect.Book? {
        EarliestSurvives(t, t', cfg, txn.request, effect.entry.fact.origin);
      }
      hide Earliest, StageOk, HoldsRows;
    case _ => hide HoldsRows, StageOk;
  }

  lemma OthersStayOrdered(t: Tables, t': Tables, cfg: Config, txns: map<nat, Txn>, tid: nat)
    requires TxnsOk(t, txns) && AllOrdered(t, cfg, txns) && Exclusive(txns) && tid in txns
    requires ChangesOnly(t, t', txns[tid].held) && SameColumns(t, t') && SameDates(t, t')
    ensures AllOrdered(t', cfg, txns[tid := Finish(txns[tid])])
  {
    assert Ordered(t', cfg, Finish(txns[tid]));
    hide Ordered, StageOk, HoldsRows, ChangesOnly, SameColumns, SameDates;
    forall u | u in txns && u != tid
      ensures Ordered(t', cfg, txns[u])
    {
      assert StageOk(t, txns[u]) && HoldsRows(t, txns[u]) && Ordered(t, cfg, txns[u]);
      OrderSurvives(t, t', cfg, txns[u], txns[tid].held);
    }
  }

  lemma StepKeepsOrder(s: State, cfg: Config, tid: nat, order: seq<nat>, base: map<nat, int>)
    requires Inv(s, base) && AllKnow(s.tables, cfg, s.txns) && AllOrdered(s.tables, cfg, s.txns)
    requires tid in s.txns && !Blocked(s.txns, tid)
    ensures var after := Step(s, cfg, tid, order); AllOrdered(after.tables, cfg, after.txns)
  {
    InvGives(s, base, tid);
    var t := s.txns[tid];
    if t.stage.Commit? {
      assert !t.request.Postpone?;
      assert !t.stage.effect.Move?;
      CommitChangesOnly(s.tables, t);
      CommitKeepsColumns(s.tables, t);
      CommitKeepsDates(s.tables, t);
      OthersStayOrdered(s.tables, Apply(s.tables, t.stage.effect), cfg, s.txns, tid);
      hide Inv, Blocked, Apply, AllKnow, Ordered, StageOk, HoldsRows, TxnsOk, Exclusive, ChangesOnly, SameColumns,
        SameDates;
    } else {
      LocalStepIs(s, cfg, tid, order);
      LocalOrdered(s.tables, cfg, s.next, t, order);
      hide Inv, Blocked, Step, Local, Knows, Ordered, StageOk, HoldsRows, TxnsOk, Exclusive;
    }
  }

  lemma EventKeepsOrder(s: State, cfg: Config, e: Event, base: map<nat, int>)
    requires Inv(s, base) && AllKnow(s.tables, cfg, s.txns) && AllOrdered(s.tables, cfg, s.txns)
    requires !(e.Start? && e.request.Postpone?)
    ensures var after := Happens(s, cfg, e); AllOrdered(after.tables, cfg, after.txns)
  {
    match e
    case Advance(tid, order) =>
      hide Inv, AllKnow, Ordered, Step, Blocked;
      if tid in s.txns && !Blocked(s.txns, tid) {
        StepKeepsOrder(s, cfg, tid, order, base);
      } else {
        BlockedStays(s, cfg, tid, order);
      }
    case Start(tid, request) => hide Inv, AllKnow;
    case Abort(tid) => hide Inv, AllKnow, StillInOrder, DueIsFirst, Earliest;
  }

  lemma EventTakesEarliest(s: State, cfg: Config, e: Event)
    requires AllOrdered(s.tables, cfg, s.txns)
    ensures forall c | c in CommitOf(s, e) :: TakesEarliest(s.tables, cfg, c.request, c.effect)
  {
    hide Blocked, TakesEarliest;
    if CommitOf(s, e) != [] {
      assert Ordered(s.tables, cfg, s.txns[e.tid]);
    }
  }

  lemma NoneOrdered(t: Tables, cfg: Config)
    ensures AllOrdered(t, cfg, map[])
  {
  }

  lemma EarlierOrLast(s: State, cfg: Config, log: seq<Committed>, c: seq<Committed>, k: nat, before: State, e: Event)
    requires k < |log + c| && c == CommitOf(before, e) && before.tables == After(s.tables, log, |log|)
    requires forall i | 0 <= i < |log| :: TakesEarliest(After(s.tables, log, i), cfg, log[i].request, log[i].effect)
    requires forall x | x in c :: TakesEarliest(before.tables, cfg, x.request, x.effect)
    ensures TakesEarliest(After(s.tables, log + c, k), cfg, (log + c)[k].request, (log + c)[k].effect)
  {
    assert |c| <= 1;
    hide TakesEarliest, Apply, CommitOf;
    if k < |log| {
      AfterPrefix(s.tables, log, c, k);
    } else {
      AfterPrefix(s.tables, log, c, |log|);
      assert (log + c)[k] == c[0] && c[0] in c;
    }
  }

  // Without postponements a posting pays the earliest unpaid occurrence of the
  // period, as it is when the posting commits, on every schedule.
  lemma {:induction false} EarliestWithoutPostponements(s: State, cfg: Config, events: seq<Event>, base: map<nat, int>)
    requires Paired(s.tables) && Balanced(s.tables, s.next, base) && s.skipped !! s.tables.occs.Keys && s.txns == map[]
    requires NoPostponement(events)
    ensures var end, log := Schedule(s, cfg, events), Commits(s, cfg, events);
            && AllOrdered(end.tables, cfg, end.txns)
            && forall k | 0 <= k < |log| :: TakesEarliest(After(s.tables, log, k), cfg, log[k].request, log[k].effect)
  {
    QuietStart(s, base);
    assert AllKnow(s.tables, cfg, s.txns);
    hide Inv, AllKnow, AllOrdered, Happens, CommitOf, TakesEarliest, OneByOne, Apply, Paired, Balanced;
    if |events| == 0 {
      NoneOrdered(s.tables, cfg);
    } else {
      var rest, e := events[..|events| - 1], events[|events| - 1];
      var before, log := Schedule(s, cfg, rest), Commits(s, cfg, rest);
      EarliestWithoutPostponements(s, cfg, rest, base);
      ScheduleIsSerial(s, cfg, rest, base);
      ScheduleKeepsInv(s, cfg, rest, base);
      EventKeepsOrder(before, cfg, e, base);
      EventTakesEarliest(before, cfg, e);
      var c := CommitOf(before, e);
      forall k | 0 <= k < |log + c|
        ensures TakesEarliest(After(s.tables, log + c, k), cfg, (log + c)[k].request, (log + c)[k].effect)
      {
        EarlierOrLast(s, cfg, log, c, k, before, e);
      }
    }
  }

  // ---- A postponement between reading and locking ----

  // Two occurrences of one subscription, due on d0 and d1.
  function TwoDue(d0: int, d1: int): Tables {
    Tables(map[0 := Sub(true, None, -5, None)],
           map[0 := Occ(Some(0), 0, -5, d0, None), 1 := Occ(Some(0), 0, -5, d1, None)], map[], map[])
  }

  function Month(last: int): Config { Config(None, Some(0), map[0 := (0, last)]) }

  // The posting has read the list and locked none of it yet.
  const READ := Txn(Post(0), WantNext([0, 1], None, false), {SubRow(0)})

  const PAID := Fact(OfOccurrence(0), None, -5)

  const READING: seq<Event> := [Start(0, Post(0))] + [Advance(0, [])] + [Advance(0, [])] + [Advance(0, [0, 1])]

  function Postponing(d: int): seq<Event> {
    [Start(1, Postpone(0, d))] + [Advance(1, [])] + [Advance(1, [])] + [Advance(1, [])]
  }

  // Lock both and choose; insert, credit and commit.
  const LOCKING: seq<Event> := [Advance(0, [])] + [Advance(0, [])] + [Advance(0, [])]

  const BOOKING: seq<Event> := LOCKING

  // A schedule goes on from where its first part leaves off.
  lemma {:induction false} ScheduleJoins(s: State, cfg: Config, a: seq<Event>, b: seq<Event>)
    ensures Schedule(s, cfg, a + b) == Schedule(Schedule(s, cfg, a), cfg, b)
    ensures Commits(s, cfg, a + b) == Commits(s, cfg, a) + Commits(Schedule(s, cfg, a), cfg, b)
  {
    hide Happens, CommitOf;
    if |b| == 0 {
      assert a + b == a;
    } else {
      ScheduleJoins(s, cfg, a, b[..|b| - 1]);
      assert (a + b)[..|a + b| - 1] == a + b[..|b| - 1];
    }
  }

  lemma OneEvent(s: State, cfg: Config, e: Event)
    ensures Schedule(s, cfg, [e]) == Happens(s, cfg, e) && Commits(s, cfg, [e]) == CommitOf(s, e)
  {
    hide Happens, CommitOf;
    assert Schedule(s, cfg, []) == s && [e][..0] == [];
  }

  // One more event of a transaction that runs alone or is not waited for.
  lemma LocalEvent(s: State, cfg: Config, events: seq<Event>, tid: nat, order: seq<nat>, after: Txn)
    requires var now := Schedule(s, cfg, events);
             && tid in now.txns && !Blocked(now.txns, tid) && !now.txns[tid].stage.Commit?
             && after == Local(now.tables, cfg, now.next, now.txns[tid], order)
    ensures var now := Schedule(s, cfg, events);
            && Schedule(s, cfg, events + [Advance(tid, order)])
               == now.(txns := now.txns[tid := after],
                       next := if now.txns[tid].stage.Insert? then now.next + 1 else now.next)
            && Commits(s, cfg, events + [Advance(tid, order)]) == Commits(s, cfg, events)
  {
    hide Local, Blocked;
    var now := Schedule(s, cfg, events);
    LocalStepIs(now, cfg, tid, order);
    OneEvent(now, cfg, Advance(tid, order));
    ScheduleJoins(s, cfg, events, [Advance(tid, order)]);
  }

  lemma StartEvent(s: State, cfg: Config, tid: nat, request: Request)
    requires tid !in s.txns
    ensures Schedule(s, cfg, [Start(tid, request)]) == s.(txns := s.txns[tid := Txn(request, Begin, {})])
    ensures Commits(s, cfg, [Start(tid, request)]) == []
  {
    OneEvent(s, cfg, Start(tid, request));
  }

  lemma CommitNow(s: State, cfg: Config, tid: nat)
    requires tid in s.txns && s.txns[tid].stage.Commit?
    ensures var t := s.txns[tid];
            && Happens(s, cfg, Advance(tid, []))
               == State(Apply(s.tables, t.stage.effect), s.next, Skipped(s.skipped, t.stage.effect),
                        s.txns[tid := Finish(t)])
            && CommitOf(s, Advance(tid, [])) == [Committed(t.request, t.stage.effect)]
  {
    hide Apply, Skipped, Finish;
  }

  lemma CommitEvent(s: State, cfg: Config, events: seq<Event>, tid: nat)
    requires var now := Schedule(s, cfg, events);
             tid in now.txns && now.txns[tid].stage.Commit?
    ensures var now := Schedule(s, cfg, events);
            var t := now.txns[tid];
            && Schedule(s, cfg, events + [Advance(tid, [])])
               == State(Apply(now.tables, t.stage.effect), now.next, Skipped(now.skipped, t.stage.effect),
                        now.txns[tid := Finish(t)])
            && Commits(s, cfg, events + [Advance(tid, [])])
               == Commits(s, cfg, events) + [Committed(t.request, t.stage.effect)]
  {
    hide *;
    var now := Schedule(s, cfg, events);
    CommitNow(now, cfg, tid);
    OneEvent(now, cfg, Advance(tid, []));
    ScheduleJoins(s, cfg, events, [Advance(tid, [])]);
  }

  lemma ReadingSteps(d0: int, d1: int, last: int)
    requires d0 <= d1
    ensures var t, cfg := TwoDue(d0, d1), Month(last);
            && Local(t, cfg, 0, Txn(Post(0), Begin, {}), []) == Txn(Post(0), WantSub(0), {})
            && Local(t, cfg, 0, Txn(Post(0), WantSub(0), {}), []) == Txn(Post(0), List, {SubRow(0)})
            && Local(t, cfg, 0, Txn(Post(0), List, {SubRow(0)}), [0, 1]) == READ
  {
    var t, cfg := TwoDue(d0, d1), Month(last);
    assert {} + {SubRow(0)} == {SubRow(0)};
    assert OccsOf(t, cfg, 0) == {0, 1};
    assert Lists(t, cfg, 0, [0, 1]);
  }

  lemma Reads(d0: int, d1: int, last: int)
    requires d0 <= d1
    ensures var s := State(TwoDue(d0, d1), 0, {}, map[]);
            && Schedule(s, Month(last), READING) == State(TwoDue(d0, d1), 0, {}, map[0 := READ])
            && Commits(s, Month(last), READING) == []
  {
    var s, cfg := State(TwoDue(d0, d1), 0, {}, map[]), Month(last);
    ReadingSteps(d0, d1, last);
    hide Local, Schedule, Commits, TwoDue, Month;
    var e := [Start(0, Post(0))];
    StartEvent(s, cfg, 0, Post(0));
    LocalEvent(s, cfg, e, 0, [], Txn(Post(0), WantSub(0), {}));
    LocalEvent(s, cfg, e + [Advance(0, [])], 0, [], Txn(Post(0), List, {SubRow(0)}));
    LocalEvent(s, cfg, e + [Advance(0, [])] + [Advance(0, [])], 0, [0, 1], READ);
  }

  function Postponed(d: int): Txn { Txn(Postpone(0, d), Done, {}) }

  lemma PostponingSteps(d0: int, d1: int, d: int, last: int)
    requires 0 <= d <= last
    ensures var t, cfg := TwoDue(d0, d1), Month(last);
            && Local(t, cfg, 0, Txn(Postpone(0, d), Begin, {}), []) == Txn(Postpone(0, d), WantOcc(0), {})
            && Local(t, cfg, 0, Txn(Postpone(0, d), WantOcc(0), {}), [])
               == Txn(Postpone(0, d), Commit(Move(0, d)), {OccRow(0)})
            && Apply(t, Move(0, d)) == TwoDue(d, d1)
  {
    assert {} + {OccRow(0)} == {OccRow(0)};
  }

  function Waiting(d0: int, d1: int, t: Txn): State { State(TwoDue(d0, d1), 0, {}, map[0 := READ, 1 := t]) }

  lemma PostponeRuns(d0: int, d1: int, d: int, last: int)
    requires 0 <= d <= last
    ensures var s := State(TwoDue(d0, d1), 0, {}, map[0 := READ]);
            var events := [Start(1, Postpone(0, d))] + [Advance(1, [])] + [Advance(1, [])];
            && Schedule(s, Month(last), events)
               == Waiting(d0, d1, Txn(Postpone(0, d), Commit(Move(0, d)), {OccRow(0)}))
            && Commits(s, Month(last), events) == []
  {
    var s, cfg := State(TwoDue(d0, d1), 0, {}, map[0 := READ]), Month(last);
    PostponingSteps(d0, d1, d, last);
    hide Local, Schedule, Commits, TwoDue, Month, Apply;
    var e := [Start(1, Postpone(0, d))];
    StartEvent(s, cfg, 1, Postpone(0, d));
    LocalEvent(s, cfg, e, 1, [], Txn(Postpone(0, d), WantOcc(0), {}));
    LocalEvent(s, cfg, e + [Advance(1, [])], 1, [], Txn(Postpone(0, d), Commit(Move(0, d)), {OccRow(0)}));
  }

  lemma Postpones(d0: int, d1: int, d: int, last: int)
    requires 0 <= d <= last
    ensures var s := State(TwoDue(d0, d1), 0, {}, map[0 := READ]);
            && Schedule(s, Month(last), Postponing(d)) == Waiting(d, d1, Postponed(d))
            && Commits(s, Month(last), Postponing(d)) == [Committed(Postpone(0, d), Move(0, d))]
  {
    var s, cfg := State(TwoDue(d0, d1), 0, {}, map[0 := READ]), Month(last);
    hide Schedule, Commits, TwoDue, Month, Apply, Local;
    PostponingSteps(d0, d1, d, last);
    PostponeRuns(d0, d1, d, last);
    CommitEvent(s, cfg, [Start(1, Postpone(0, d))] + [Advance(1, [])] + [Advance(1, [])], 1);
  }

  // Stages of the posting once it locks; occurrence 0 comes first in the list.
  function Paying(stage: Stage, held: set<Resource>): Txn { Txn(Post(0), stage, {SubRow(0)} + held) }

  lemma PayingSteps(d: int, d1: int, last: int)
    ensures var t, cfg := TwoDue(d, d1), Month(last);
            && Local(t, cfg, 0, READ, []) == Paying(WantNext([1], Some(0), true), {OccRow(0)})
            && Local(t, cfg, 0, Paying(WantNext([1], Some(0), true), {OccRow(0)}), [])
               == Paying(WantNext([], Some(0), true), {OccRow(0), OccRow(1)})
            && Local(t, cfg, 0, Paying(WantNext([], Some(0), true), {OccRow(0), OccRow(1)}), [])
               == Paying(Insert(OfOccurrence(0)), {OccRow(0), OccRow(1)})
            && Local(t, cfg, 0, Paying(Insert(OfOccurrence(0)), {OccRow(0), OccRow(1)}), [])
               == Paying(Credit(Entry(0, PAID)), {OccRow(0), OccRow(1)})
            && Local(t, cfg, 1, Paying(Credit(Entry(0, PAID)), {OccRow(0), OccRow(1)}), [])
               == Paying(Commit(Book(Entry(0, PAID), 0)), {OccRow(0), OccRow(1)})
  {
    assert [0, 1][1..] == [1] && [1][1..] == [];
    assert {SubRow(0)} + {OccRow(0)} + {OccRow(1)} == {SubRow(0)} + {OccRow(0), OccRow(1)};
  }

  lemma EmptySchedule(s: State, cfg: Config)
    ensures Schedule(s, cfg, []) == s && Commits(s, cfg, []) == []
  {
  }

  function Late(d: int, d1: int, stage: Stage, held: set<Resource>): State {
    State(TwoDue(d, d1), 0, {}, map[0 := Paying(stage, held), 1 := Postponed(d)])
  }

  lemma Locks(d: int, d1: int, last: int)
    ensures var s := Waiting(d, d1, Postponed(d));
            && Schedule(s, Month(last), LOCKING) == Late(d, d1, Insert(OfOccurrence(0)), {OccRow(0), OccRow(1)})
            && Commits(s, Month(last), LOCKING) == []
  {
    var s, cfg := Waiting(d, d1, Postponed(d)), Month(last);
    PayingSteps(d, d1, last);
    EmptySchedule(s, cfg);
    hide Local, Schedule, Commits, TwoDue, Month, Apply;
    var both, e := {OccRow(0), OccRow(1)}, [Advance(0, [])];
    assert [] + e == e;
    LocalEvent(s, cfg, [], 0, [], Paying(WantNext([1], Some(0), true), {OccRow(0)}));
    LocalEvent(s, cfg, e, 0, [], Paying(WantNext([], Some(0), true), both));
    LocalEvent(s, cfg, e + e, 0, [], Paying(Insert(OfOccurrence(0)), both));
  }

  lemma Pays(d: int, d1: int, last: int)
    ensures Commits(Late(d, d1, Insert(OfOccurrence(0)), {OccRow(0), OccRow(1)}), Month(last), BOOKING)
            == [Committed(Post(0), Book(Entry(0, PAID), 0))]
  {
    var both, e := {OccRow(0), OccRow(1)}, [Advance(0, [])];
    var s, cfg := Late(d, d1, Insert(OfOccurrence(0)), both), Month(last);
    PayingSteps(d, d1, last);
    EmptySchedule(s, cfg);
    hide Local, Schedule, Commits, TwoDue, Month, Apply;
    assert [] + e == e;
    LocalEvent(s, cfg, [], 0, [], Paying(Credit(Entry(0, PAID)), both));
    LocalEvent(s, cfg, e, 0, [], Paying(Commit(Book(Entry(0, PAID), 0)), both));
    CommitEvent(s, cfg, e + e, 0);
  }

  lemma EarliestOfTwo(d: int, d1: int, last: int)
    ensures TakesEarliest(TwoDue(d, d1), Month(last), Post(0), Book(Entry(0, PAID), 0)) <==> d <= d1
  {
    assert OccsOf(TwoDue(d, d1), Month(last), 0) == {0, 1};
    assert Unpaid(TwoDue(d, d1), 1);
  }

  lemma PaidIsNotPostponed(d0: int, d1: int, d: int, last: int)
    ensures !Alone(Apply(TwoDue(d0, d1), Book(Entry(0, PAID), 0)), Month(last), Postpone(0, d), Move(0, d))
  {
  }

  lemma AfterFirst(t: Tables, c: Committed, d: Committed)
    ensures After(t, [c] + [d], 1) == Apply(t, c.effect) && [c] + [d] == [c, d]
  {
    hide Apply;
  }

  lemma TwoDueStart(d0: int, d1: int)
    ensures Paired(TwoDue(d0, d1)) && Balanced(TwoDue(d0, d1), 0, map[])
  {
  }

  lemma OvertakenLog(d0: int, d1: int, d: int, last: int)
    requires d0 <= d1 && 0 <= d <= last
    ensures Commits(State(TwoDue(d0, d1), 0, {}, map[]), Month(last), READING + Postponing(d) + LOCKING + BOOKING)
            == [Committed(Postpone(0, d), Move(0, d))] + [Committed(Post(0), Book(Entry(0, PAID), 0))]
  {
    hide *;
    var s, cfg := State(TwoDue(d0, d1), 0, {}, map[]), Month(last);
    Reads(d0, d1, last);
    Postpones(d0, d1, d, last);
    Locks(d, d1, last);
    Pays(d, d1, last);
    ScheduleJoins(s, cfg, READING, Postponing(d));
    ScheduleJoins(s, cfg, READING + Postponing(d), LOCKING);
    ScheduleJoins(s, cfg, READING + Postponing(d) + LOCKING, BOOKING);
  }

  // A posting reads two occurrences, the first is postponed before the posting
  // locks it, and the posting goes on to pay it. It is the earliest one if and
  // only if the new date is not after the other's; otherwise no order of the two
  // requests gives this outcome, since a paid occurrence is not postponed.
  lemma OvertakenPosting(d0: int, d1: int, d: int, last: int)
    requires d0 <= d1 && 0 <= d <= last
    ensures var s, cfg := State(TwoDue(d0, d1), 0, {}, map[]), Month(last);
            var log := Commits(s, cfg, READING + Postponing(d) + LOCKING + BOOKING);
            && Paired(s.tables) && Balanced(s.tables, 0, map[])
            && log == [Committed(Postpone(0, d), Move(0, d)), Committed(Post(0), Book(Entry(0, PAID), 0))]
            && (TakesEarliest(After(s.tables, log, 1), cfg, log[1].request, log[1].effect) <==> d <= d1)
            && !Alone(Apply(s.tables, log[1].effect), cfg, log[0].request, log[0].effect)
  {
    var s, cfg := State(TwoDue(d0, d1), 0, {}, map[]), Month(last);
    hide *;
    TwoDueStart(d0, d1);
    PostponingSteps(d0, d1, d, last);
    OvertakenLog(d0, d1, d, last);
    AfterFirst(s.tables, Committed(Postpone(0, d), Move(0, d)), Committed(Post(0), Book(Entry(0, PAID), 0)));
    EarliestOfTwo(d, d1, last);
    PaidIsNotPostponed(d0, d1, d, last);
  }
}
