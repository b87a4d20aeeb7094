// Safety and progress of the posting protocol on every schedule
// (app/services/subscriptions.py).
module ProtocolTheorems {
  import opened Wrappers
  import opened Sums
  import opened PostingProtocol

  // ---- What the committed rows always satisfy ----

  // An occurrence and the transaction that paid it name each other, so an
  // occurrence has at most one live transaction; a direct posting happens at
  // most once per subscription.
  predicate Paired(t: Tables) {
    && (forall i | i in t.facts && t.facts[i].origin.OfOccurrence? ::
          t.facts[i].origin.occ in t.occs && t.occs[t.facts[i].origin.occ].posted == Some(i))
    && (forall o | o in t.occs && t.occs[o].posted.Some? ::
          t.occs[o].posted.value in t.facts && t.facts[t.occs[o].posted.value].origin == OfOccurrence(o))
    && (forall i | i in t.facts && t.facts[i].origin.OfSubscription? ::
          t.facts[i].origin.sub in t.subs && t.subs[t.facts[i].origin.sub].posted.Some?)
    && (forall i, j | i in t.facts && j in t.facts && t.facts[i].origin == t.facts[j].origin :: i == j)
  }

  function FactShare(facts: map<nat, Fact>, a: nat): nat -> int {
    (i: nat) => if i in facts && facts[i].account == Some(a) then facts[i].delta else 0
  }

  // Balances are the base plus the fold over the committed transactions.
  predicate Balanced(t: Tables, next: nat, base: map<nat, int>) {
    && t.accounts.Keys == base.Keys
    && (forall i | i in t.facts :: i < next && (t.facts[i].account.Some? ==> t.facts[i].account.value in t.accounts))
    && (forall a | a in base :: t.accounts[a] == base[a] + Sum(FactShare(t.facts, a), next))
  }

  // ---- What a transaction in flight knows about the rows it has locked ----

  predicate Claims(t: Tables, held: set<Resource>, origin: Origin) {
    match origin
    case OfSubscription(x) => SubRow(x) in held && x in t.subs && t.subs[x].posted.None?
    case OfOccurrence(o) =>
      && OccRow(o) in held && o in t.occs && t.occs[o].posted.None?
      && (SubOf(t, o).Some? ==> SubRow(SubOf(t, o).value) in held)
  }

  predicate RowOf(t: Tables, o: nat, x: nat) { o in t.occs ==> t.occs[o].sub == Some(x) }

  // Occurrences are locked only by transactions that hold their subscription,
  // or that want nothing more.
  ghost predicate HoldsRows(t: Tables, txn: Txn) {
    && (forall x | SubRow(x) in txn.held :: x in t.subs)
    && (forall o | OccRow(o) in txn.held :: o in t.occs)
    && (forall o | OccRow(o) in txn.held && SubOf(t, o).Some? && (txn.request.Post? || txn.request.Pay?) ::
          SubRow(SubOf(t, o).value) in txn.held)
    && (forall o | OccRow(o) in txn.held && txn.request.Post? :: t.occs[o].sub == Some(txn.request.sub))
  }

  predicate NoOccHeld(held: set<Resource>) { forall r | r in held :: r.SubRow? }

  predicate NoAccountHeld(held: set<Resource>) { forall r | r in held :: !r.AccountRow? }

  predicate StageOk(t: Tables, txn: Txn) {
    match txn.stage
    case Begin => txn.held == {}
    case Done => txn.held == {}
    case WantSub(x) =>
      && txn.held == {}
      && (match txn.request
          case Post(y) => x == y
          case Pay(o, _) => RowOf(t, o, x)
          case _ => false)
    case List => txn.request.Post? && txn.held == {SubRow(txn.request.sub)}
    case WantNext(todo, due, _) =>
      && txn.request.Post? && SubRow(txn.request.sub) in txn.held && NoAccountHeld(txn.held)
      && (forall k | 0 <= k < |todo| :: RowOf(t, todo[k], txn.request.sub))
      && (due.Some? ==> Claims(t, txn.held, OfOccurrence(due.value)))
    case WantOcc(o) =>
      && NoOccHeld(txn.held)
      && (match txn.request
          case Post(_) => false
          case Pay(p, _) => p == o && (o in t.occs && SubOf(t, o).Some? ==> SubRow(SubOf(t, o).value) in txn.held)
          case Skip(p) => p == o && txn.held == {}
          case Postpone(p, _) => p == o && txn.held == {})
    case Insert(origin) => (txn.request.Post? || txn.request.Pay?) && NoAccountHeld(txn.held)
        && Claims(t, txn.held, origin)
    case Credit(e) =>
      && (txn.request.Post? || txn.request.Pay?) && NoAccountHeld(txn.held) && Claims(t, txn.held, e.fact.origin)
      && (e.fact.account.Some? ==> e.fact.account.value in t.accounts)
    case Commit(effect) =>
      match effect
      case Book(e, balance) =>
        && (txn.request.Post? || txn.request.Pay?) && Claims(t, txn.held, e.fact.origin)
        && (e.fact.account.Some? ==>
              && AccountRow(e.fact.account.value) in txn.held && e.fact.account.value in t.accounts
              && balance == t.accounts[e.fact.account.value] + e.fact.delta)
      case Remove(o) => txn.request.Skip? && txn.held == {OccRow(o)} && o in t.occs && t.occs[o].posted.None?
      case Move(o, _) => txn.request.Postpone? && txn.held == {OccRow(o)} && o in t.occs && t.occs[o].posted.None?
  }

  function Pending(txn: Txn): Option<nat> {
    if txn.stage.Credit? then Some(txn.stage.entry.id)
    else if txn.stage.Commit? && txn.stage.effect.Book? then Some(txn.stage.effect.entry.id)
    else None
  }

  predicate PendingOk(facts: map<nat, Fact>, next: nat, txns: map<nat, Txn>) {
    && (forall t | t in txns && Pending(txns[t]).Some? ::
          Pending(txns[t]).value < next && Pending(txns[t]).value !in facts)
    && (forall t, u | t in txns && u in txns && Pending(txns[t]).Some? && Pending(txns[t]) == Pending(txns[u]) ::
          t == u)
  }

  predicate Exclusive(txns: map<nat, Txn>) {
    forall t, u | t in txns && u in txns && t != u :: txns[t].held !! txns[u].held
  }

  ghost predicate TxnsOk(t: Tables, txns: map<nat, Txn>) {
    forall tid | tid in txns :: HoldsRows(t, txns[tid]) && StageOk(t, txns[tid])
  }

  ghost predicate Inv(s: State, base: map<nat, int>) {
    && Paired(s.tables) && Balanced(s.tables, s.next, base)
    && s.skipped !! s.tables.occs.Keys
    && PendingOk(s.tables.facts, s.next, s.txns) && Exclusive(s.txns) && TxnsOk(s.tables, s.txns)
  }

  // ---- A step that only locks or reads ----

  lemma LockSubOk(t: Tables, txn: Txn, x: nat)
    requires txn.stage == WantSub(x) && StageOk(t, txn) && HoldsRows(t, txn)
    ensures StageOk(t, LockSub(t, txn, x)) && HoldsRows(t, LockSub(t, txn, x))
    ensures LockSub(t, txn, x).held <= txn.held + {SubRow(x)}
  {
  }

  lemma FirstStageOk(t: Tables, txn: Txn)
    requires txn.stage.Begin? && StageOk(t, txn)
    ensures StageOk(t, txn.(stage := FirstStage(t, txn.request)))
  {
  }

  lemma LockNextOk(t: Tables, txn: Txn)
    requires txn.stage.WantNext? && |txn.stage.todo| > 0 && StageOk(t, txn) && HoldsRows(t, txn)
    ensures var after := LockNext(t, txn, txn.stage.todo, txn.stage.due, txn.stage.found);
            && StageOk(t, after) && HoldsRows(t, after) && after.held <= txn.held + {OccRow(txn.stage.todo[0])}
  {
    assert RowOf(t, txn.stage.todo[0], txn.request.sub);
  }

  lemma ChooseOk(t: Tables, txn: Txn)
    requires txn.stage.WantNext? && StageOk(t, txn) && HoldsRows(t, txn)
    ensures var after := Choose(t, txn, txn.stage.due, txn.stage.found);
            StageOk(t, after) && HoldsRows(t, after) && after.held <= txn.held
  {
  }

  lemma LockOccOk(t: Tables, cfg: Config, txn: Txn, o: nat)
    requires txn.stage == WantOcc(o) && StageOk(t, txn) && HoldsRows(t, txn)
    ensures var after := LockOcc(t, cfg, txn, o);
            StageOk(t, after) && HoldsRows(t, after) && after.held <= txn.held + {OccRow(o)}
  {
  }

  lemma ListOk(t: Tables, cfg: Config, txn: Txn, order: seq<nat>)
    requires txn.stage.List? && StageOk(t, txn) && HoldsRows(t, txn)
        && Enumerates(order, OccsOf(t, cfg, txn.request.sub))
    ensures StageOk(t, txn.(stage := WantNext(order, None, false)))
  {
    assert forall k | 0 <= k < |order| :: order[k] in OccsOf(t, cfg, txn.request.sub);
  }

  lemma InsertOk(t: Tables, cfg: Config, next: nat, txn: Txn, origin: Origin)
    requires txn.stage == Insert(origin) && StageOk(t, txn) && HoldsRows(t, txn)
    ensures var after := InsertFact(t, cfg, next, txn, origin);
            && StageOk(t, after) && HoldsRows(t, after) && after.held <= txn.held
            && (Pending(after).Some? ==> Pending(after).value == next)
  {
  }

  lemma CreditOk(t: Tables, txn: Txn, e: Entry)
    requires txn.stage == Credit(e) && StageOk(t, txn) && HoldsRows(t, txn)
    ensures var after := CreditAccount(t, txn, e);
            && StageOk(t, after) && HoldsRows(t, after)
            && after.held <= txn.held + (if e.fact.account.Some? then {AccountRow(e.fact.account.value)} else {})
            && (Pending(after).Some? ==> Pending(after).value == e.id)
  {
  }

  function Wanted(txn: Txn): set<Resource> { if Wants(txn).Some? then {Wants(txn).value} else {} }

  // A local step keeps what the transaction knows, and takes at most the lock
  // it was waiting for.
  lemma LocalOk(t: Tables, cfg: Config, next: nat, txn: Txn, order: seq<nat>)
    requires StageOk(t, txn) && HoldsRows(t, txn)
    ensures var after := Local(t, cfg, next, txn, order);
            && StageOk(t, after) && HoldsRows(t, after) && after.held <= txn.held + Wanted(txn)
            && (Pending(after).Some? ==>
                  (txn.stage.Insert? && Pending(after).value == next) || Pending(after) == Pending(txn))
  {
    match txn.stage
    case Begin => FirstStageOk(t, txn);
    case WantSub(x) => LockSubOk(t, txn, x);
    case List =>
      if Lists(t, cfg, txn.request.sub, order) {
        ListOk(t, cfg, txn, order);
      }
    case WantNext(todo, _, _) =>
      if |todo| > 0 {
        LockNextOk(t, txn);
      } else {
        ChooseOk(t, txn);
      }
    case WantOcc(o) => LockOccOk(t, cfg, txn, o);
    case Insert(origin) => InsertOk(t, cfg, next, txn, origin);
    case Credit(e) => CreditOk(t, txn, e);
    case Commit(_) =>
    case Done =>
  }

  lemma LocalKeepsExclusive(txns: map<nat, Txn>, tid: nat, after: Txn)
    requires Exclusive(txns) && tid in txns && !Blocked(txns, tid)
    requires after.held <= txns[tid].held + Wanted(txns[tid])
    ensures Exclusive(txns[tid := after])
  {
    hide Wants;
    forall u | u in txns && u != tid
      ensures after.held !! txns[u].held
    {
      assert txns[tid].held !! txns[u].held;
    }
  }

  lemma LocalKeepsPending(facts: map<nat, Fact>, next: nat, txns: map<nat, Txn>, tid: nat, after: Txn)
    requires PendingOk(facts, next, txns) && tid in txns && forall i | i in facts :: i < next
    requires Pending(after).Some? ==>
               (txns[tid].stage.Insert? && Pending(after).value == next) || Pending(after) == Pending(txns[tid])
    ensures PendingOk(facts, if txns[tid].stage.Insert? then next + 1 else next, txns[tid := after])
  {
    hide Pending;
  }

  lemma CounterKeepsBalanced(t: Tables, next: nat, base: map<nat, int>)
    requires Balanced(t, next, base)
    ensures Balanced(t, next + 1, base)
  {
    forall a | a in base
      ensures Sum(FactShare(t.facts, a), next + 1) == Sum(FactShare(t.facts, a), next)
    {
      SumPads(FactShare(t.facts, a), next, next + 1);
    }
  }

  lemma LocalStepIs(s: State, cfg: Config, tid: nat, order: seq<nat>)
    requires tid in s.txns && !Blocked(s.txns, tid) && !s.txns[tid].stage.Commit?
    ensures var t := s.txns[tid];
            Step(s, cfg, tid, order) == s.(txns := s.txns[tid := Local(s.tables, cfg, s.next, t, order)],
                                           next := if t.stage.Insert? then s.next + 1 else s.next)
  {
    hide Local, Blocked;
  }

  lemma InvGives(s: State, base: map<nat, int>, tid: nat)
    requires Inv(s, base) && tid in s.txns
    ensures Paired(s.tables) && Balanced(s.tables, s.next, base) && s.skipped !! s.tables.occs.Keys
    ensures PendingOk(s.tables.facts, s.next, s.txns) && Exclusive(s.txns) && TxnsOk(s.tables, s.txns)
    ensures HoldsRows(s.tables, s.txns[tid]) && StageOk(s.tables, s.txns[tid])
    ensures forall i | i in s.tables.facts :: i < s.next
    ensures Pending(s.txns[tid]).Some? ==>
              Pending(s.txns[tid]).value < s.next && Pending(s.txns[tid]).value !in s.tables.facts
  {
    hide Paired, Exclusive, StageOk, HoldsRows, Pending;
  }

  lemma InvFrom(s: State, base: map<nat, int>)
    requires Paired(s.tables) && Balanced(s.tables, s.next, base) && s.skipped !! s.tables.occs.Keys
    requires PendingOk(s.tables.facts, s.next, s.txns) && Exclusive(s.txns) && TxnsOk(s.tables, s.txns)
    ensures Inv(s, base)
  {
    hide Paired, Balanced, PendingOk, Exclusive, TxnsOk;
  }

  lemma TxnsKept(t: Tables, txns: map<nat, Txn>, tid: nat, after: Txn)
    requires TxnsOk(t, txns) && StageOk(t, after) && HoldsRows(t, after)
    ensures TxnsOk(t, txns[tid := after])
  {
    hide StageOk, HoldsRows;
  }

  lemma LocalKeepsInv(s: State, cfg: Config, tid: nat, order: seq<nat>, base: map<nat, int>)
    requires Inv(s, base) && tid in s.txns && !Blocked(s.txns, tid) && !s.txns[tid].stage.Commit?
    ensures Inv(Step(s, cfg, tid, order), base)
  {
    hide *;
    var t := s.txns[tid];
    var after := Local(s.tables, cfg, s.next, t, order);
    InvGives(s, base, tid);
    LocalOk(s.tables, cfg, s.next, t, order);
    LocalKeepsExclusive(s.txns, tid, after);
    LocalKeepsPending(s.tables.facts, s.next, s.txns, tid, after);
    CounterKeepsBalanced(s.tables, s.next, base);
    TxnsKept(s.tables, s.txns, tid, after);
    LocalStepIs(s, cfg, tid, order);
    InvFrom(Step(s, cfg, tid, order), base);
  }

  // ---- A commit ----

  // Only rows locked by the committing transaction change.
  ghost predicate ChangesOnly(t: Tables, t': Tables, held: set<Resource>) {
    && t'.subs.Keys == t.subs.Keys && t'.accounts.Keys == t.accounts.Keys && t'.occs.Keys <= t.occs.Keys
    && (forall x | x in t.subs && SubRow(x) !in held :: t'.subs[x] == t.subs[x])
    && (forall o | o in t.occs && OccRow(o) !in held :: o in t'.occs && t'.occs[o] == t.occs[o])
    && (forall o | o in t'.occs :: t'.occs[o].sub == t.occs[o].sub)
    && (forall a | a in t.accounts && AccountRow(a) !in held :: t'.accounts[a] == t.accounts[a])
  }

  lemma CommitChangesOnly(t: Tables, txn: Txn)
    requires StageOk(t, txn) && HoldsRows(t, txn) && txn.stage.Commit?
    ensures ChangesOnly(t, Apply(t, txn.stage.effect), txn.held)
  {
  }

  // What another transaction knows survives a commit of rows it has not locked.
  lemma StageSurvives(t: Tables, t': Tables, txn: Txn, held: set<Resource>)
    requires StageOk(t, txn) && HoldsRows(t, txn) && ChangesOnly(t, t', held) && txn.held !! held
    ensures StageOk(t', txn) && HoldsRows(t', txn)
  {
    assert forall o | o in t'.occs :: SubOf(t', o) == SubOf(t, o);
  }

  lemma BookOccurrenceKeepsPaired(t: Tables, e: Entry, balance: int)
    requires Paired(t) && e.id !in t.facts && e.fact.origin.OfOccurrence?
    requires e.fact.origin.occ in t.occs && t.occs[e.fact.origin.occ].posted.None?
    ensures Paired(Apply(t, Book(e, balance)))
  {
    assert forall i | i in t.facts :: t.facts[i].origin != e.fact.origin;
  }

  lemma BookSubscriptionKeepsPaired(t: Tables, e: Entry, balance: int)
    requires Paired(t) && e.id !in t.facts && e.fact.origin.OfSubscription?
    requires e.fact.origin.sub in t.subs && t.subs[e.fact.origin.sub].posted.None?
    ensures Paired(Apply(t, Book(e, balance)))
  {
    assert forall i | i in t.facts :: t.facts[i].origin != e.fact.origin;
  }

  lemma BookKeepsPaired(t: Tables, txn: Txn, e: Entry, balance: int)
    requires Paired(t) && StageOk(t, txn) && txn.stage == Commit(Book(e, balance)) && e.id !in t.facts
    ensures Paired(Apply(t, Book(e, balance)))
  {
    assert Claims(t, txn.held, e.fact.origin);
    hide Paired, Apply, StageOk;
    if e.fact.origin.OfOccurrence? {
      BookOccurrenceKeepsPaired(t, e, balance);
    } else {
      BookSubscriptionKeepsPaired(t, e, balance);
    }
  }

  lemma UnpaidKeepsPaired(t: Tables, effect: Effect)
    requires Paired(t) && !effect.Book? && effect.occ in t.occs && t.occs[effect.occ].posted.None?
    ensures Paired(Apply(t, effect))
  {
  }

  lemma FactFoldGrows(facts: map<nat, Fact>, e: Entry, a: nat, next: nat)
    requires e.id !in facts && e.id < next
    ensures Sum(FactShare(facts[e.id := e.fact], a), next)
            == Sum(FactShare(facts, a), next) + if e.fact.account == Some(a) then e.fact.delta else 0
  {
    SumChanges(FactShare(facts, a), FactShare(facts[e.id := e.fact], a), next, e.id);
  }

  lemma BookedRows(t: Tables, e: Entry, balance: int)
    ensures var after := Apply(t, Book(e, balance));
            && after.facts == t.facts[e.id := e.fact]
            && after.accounts == if e.fact.account.Some? then t.accounts[e.fact.account.value := balance]
                else t.accounts
  {
  }

  lemma BookKeepsBalanced(t: Tables, txn: Txn, e: Entry, balance: int, next: nat, base: map<nat, int>)
    requires Balanced(t, next, base) && StageOk(t, txn) && txn.stage == Commit(Book(e, balance)) && e.id !in t.facts
        && e.id < next
    ensures Balanced(Apply(t, Book(e, balance)), next, base)
  {
    BookedRows(t, e, balance);
    hide Claims, Apply, FactShare, Sum;
    forall a | a in base
      ensures Sum(FactShare(t.facts[e.id := e.fact], a), next)
              == Sum(FactShare(t.facts, a), next) + if e.fact.account == Some(a) then e.fact.delta else 0
    {
      FactFoldGrows(t.facts, e, a, next);
    }
  }

  lemma FinishKeepsPending(facts: map<nat, Fact>, next: nat, txns: map<nat, Txn>, tid: nat, facts': map<nat, Fact>)
    requires PendingOk(facts, next, txns) && tid in txns
    requires forall i | i in facts' :: i in facts || Pending(txns[tid]) == Some(i)
    ensures PendingOk(facts', next, txns[tid := Finish(txns[tid])])
  {
    assert Pending(Finish(txns[tid])).None?;
    hide Pending;
  }

  lemma FinishKeepsExclusive(txns: map<nat, Txn>, tid: nat)
    requires Exclusive(txns) && tid in txns
    ensures Exclusive(txns[tid := Finish(txns[tid])])
  {
  }

  lemma CommitKeepsTxns(t: Tables, t': Tables, txns: map<nat, Txn>, tid: nat)
    requires TxnsOk(t, txns) && Exclusive(txns) && tid in txns && ChangesOnly(t, t', txns[tid].held)
    ensures TxnsOk(t', txns[tid := Finish(txns[tid])])
  {
    var done := Finish(txns[tid]);
    assert StageOk(t', done) && HoldsRows(t', done);
    hide StageOk, HoldsRows, ChangesOnly, Finish;
    forall u | u in txns && u != tid
      ensures HoldsRows(t', txns[u]) && StageOk(t', txns[u])
    {
      assert HoldsRows(t, txns[u]) && StageOk(t, txns[u]);
      StageSurvives(t, t', txns[u], txns[tid].held);
    }
  }

  lemma CommitKeepsRows(s: State, txn: Txn, base: map<nat, int>)
    requires Paired(s.tables) && Balanced(s.tables, s.next, base) && s.skipped !! s.tables.occs.Keys
    requires StageOk(s.tables, txn) && txn.stage.Commit?
    requires Pending(txn).Some? ==> Pending(txn).value < s.next && Pending(txn).value !in s.tables.facts
    ensures var t' := Apply(s.tables, txn.stage.effect);
            && Paired(t') && Balanced(t', s.next, base) && Skipped(s.skipped, txn.stage.effect) !! t'.occs.Keys
            && (forall i | i in t'.facts :: i in s.tables.facts || Pending(txn) == Some(i))
  {
    match txn.stage.effect
    case Book(e, balance) =>
      BookKeepsPaired(s.tables, txn, e, balance);
      BookKeepsBalanced(s.tables, txn, e, balance, s.next, base);
      hide Paired, Balanced, StageOk;
    case Remove(o) =>
      UnpaidKeepsPaired(s.tables, txn.stage.effect);
      hide Paired, StageOk;
    case Move(o, date) =>
      UnpaidKeepsPaired(s.tables, txn.stage.effect);
      hide Paired, StageOk;
  }

  lemma CommitKeepsInv(s: State, cfg: Config, tid: nat, order: seq<nat>, base: map<nat, int>)
    requires Inv(s, base) && tid in s.txns && s.txns[tid].stage.Commit?
    ensures Inv(Step(s, cfg, tid, order), base)
  {
    var txn := s.txns[tid];
    var t' := Apply(s.tables, txn.stage.effect);
    assert HoldsRows(s.tables, txn) && StageOk(s.tables, txn);
    assert Pending(txn).Some? ==> Pending(txn).value < s.next && Pending(txn).value !in s.tables.facts;
    assert !Blocked(s.txns, tid);
    hide Paired, Balanced, PendingOk, Exclusive, TxnsOk, StageOk, HoldsRows, Apply, Blocked, Pending, ChangesOnly,
        Skipped, Finish;
    CommitChangesOnly(s.tables, txn);
    CommitKeepsTxns(s.tables, t', s.txns, tid);
    CommitKeepsRows(s, txn, base);
    FinishKeepsPending(s.tables.facts, s.next, s.txns, tid, t'.facts);
    FinishKeepsExclusive(s.txns, tid);
  }

  // ---- Every schedule ----

  lemma FinishedKnowsNothing(t: Tables, txn: Txn)
    ensures StageOk(t, Finish(txn)) && HoldsRows(t, Finish(txn))
  {
  }

  lemma AbortKeepsInv(s: State, tid: nat, base: map<nat, int>)
    requires Inv(s, base) && tid in s.txns
    ensures Inv(s.(txns := s.txns[tid := Finish(s.txns[tid])]), base)
  {
    hide *;
    InvGives(s, base, tid);
    FinishKeepsPending(s.tables.facts, s.next, s.txns, tid, s.tables.facts);
    FinishKeepsExclusive(s.txns, tid);
    FinishedKnowsNothing(s.tables, s.txns[tid]);
    TxnsKept(s.tables, s.txns, tid, Finish(s.txns[tid]));
    InvFrom(s.(txns := s.txns[tid := Finish(s.txns[tid])]), base);
  }

  lemma StartKeepsInv(s: State, tid: nat, request: Request, base: map<nat, int>)
    requires Inv(s, base) && tid !in s.txns
    ensures Inv(s.(txns := s.txns[tid := Txn(request, Begin, {})]), base)
  {
    hide Paired, Balanced;
  }

  lemma BlockedStays(s: State, cfg: Config, tid: nat, order: seq<nat>)
    requires tid !in s.txns || Blocked(s.txns, tid)
    ensures Step(s, cfg, tid, order) == s
  {
  }

  lemma EventKeepsInv(s: State, cfg: Config, e: Event, base: map<nat, int>)
    requires Inv(s, base)
    ensures Inv(Happens(s, cfg, e), base)
  {
    hide Inv, Blocked, Step, Finish;
    match e
    case Advance(tid, order) =>
      if tid !in s.txns || Blocked(s.txns, tid) {
        BlockedStays(s, cfg, tid, order);
      } else if s.txns[tid].stage.Commit? {
        CommitKeepsInv(s, cfg, tid, order, base);
      } else {
        LocalKeepsInv(s, cfg, tid, order, base);
      }
    case Start(tid, request) =>
      if tid !in s.txns {
        StartKeepsInv(s, tid, request, base);
      }
    case Abort(tid) =>
      if tid in s.txns {
        AbortKeepsInv(s, tid, base);
      }
  }

  lemma {:induction false} ScheduleKeepsInv(s: State, cfg: Config, events: seq<Event>, base: map<nat, int>)
    requires Inv(s, base)
    ensures Inv(Schedule(s, cfg, events), base)
  {
    hide Inv, Happens;
    if |events| == 0 {
    } else {
      ScheduleKeepsInv(s, cfg, events[..|events| - 1], base);
      EventKeepsInv(Schedule(s, cfg, events[..|events| - 1]), cfg, events[|events| - 1], base);
    }
  }

  // Before any transaction starts, only the rows matter.
  lemma QuietStart(s: State, base: map<nat, int>)
    requires Paired(s.tables) && Balanced(s.tables, s.next, base) && s.skipped !! s.tables.occs.Keys && s.txns == map[]
    ensures Inv(s, base)
  {
    hide Paired, Balanced;
  }

  // On every schedule: no occurrence is paid by two live transactions, none is
  // both paid and skipped, no subscription is directly posted twice, and every
  // balance is the base plus the fold over the committed transactions.
  lemma EveryScheduleIsSafe(s: State, cfg: Config, events: seq<Event>, base: map<nat, int>)
    requires Paired(s.tables) && Balanced(s.tables, s.next, base) && s.skipped !! s.tables.occs.Keys && s.txns == map[]
    ensures var end := Schedule(s, cfg, events);
            && (forall i, j | i in end.tables.facts && j in end.tables.facts
                              && end.tables.facts[i].origin == end.tables.facts[j].origin :: i == j)
            && (forall i | i in end.tables.facts && end.tables.facts[i].origin.OfOccurrence? ::
                  end.tables.facts[i].origin.occ !in end.skipped)
            && (forall a | a in base :: a in end.tables.accounts
                  && end.tables.accounts[a] == base[a] + Sum(FactShare(end.tables.facts, a), end.next))
  {
    QuietStart(s, base);
    ScheduleKeepsInv(s, cfg, events, base);
    hide Schedule, TxnsOk, PendingOk, Exclusive;
  }

  lemma HasPending(t: Txn)
    requires t.stage.Commit? && t.stage.effect.Book?
    ensures Pending(t) == Some(t.stage.effect.entry.id)
  {
  }

  // What a posting transaction knows when it commits.
  lemma BookClaims(t: Tables, txn: Txn, e: Entry, balance: int)
    requires StageOk(t, txn) && txn.stage == Commit(Book(e, balance))
    ensures e.fact.origin.OfOccurrence? ==> e.fact.origin.occ in t.occs && t.occs[e.fact.origin.occ].posted.None?
    ensures e.fact.account.Some? ==>
              e.fact.account.value in t.accounts && balance == t.accounts[e.fact.account.value] + e.fact.delta
  {
    assert Claims(t, txn.held, e.fact.origin);
  }

  lemma BookedOccurrence(t: Tables, e: Entry, balance: int)
    requires e.fact.origin.OfOccurrence? ==> e.fact.origin.occ in t.occs
    ensures var after := Apply(t, Book(e, balance));
            e.fact.origin.OfOccurrence? ==>
              e.fact.origin.occ in after.occs && after.occs[e.fact.origin.occ].posted == Some(e.id)
  {
    hide Mirrored;
  }

  lemma CommitStepIs(s: State, cfg: Config, tid: nat, order: seq<nat>)
    requires tid in s.txns && s.txns[tid].stage.Commit?
    ensures Step(s, cfg, tid, order).tables == Apply(s.tables, s.txns[tid].stage.effect)
  {
    hide Apply;
  }

  // A commit that posts acts on the rows as they are at that moment: the
  // occurrence is still there and unpaid, and the account moves by exactly the
  // amount, however many transactions ran in between.
  lemma CommitIsAtomic(s: State, cfg: Config, tid: nat, order: seq<nat>, base: map<nat, int>)
    requires Inv(s, base) && tid in s.txns && s.txns[tid].stage.Commit? && s.txns[tid].stage.effect.Book?
    ensures var e := s.txns[tid].stage.effect.entry;
            var before, after := s.tables, Step(s, cfg, tid, order).tables;
            && e.id !in before.facts && after.facts == before.facts[e.id := e.fact]
            && (e.fact.origin.OfOccurrence? ==>
                  && e.fact.origin.occ in before.occs && before.occs[e.fact.origin.occ].posted.None?
                  && e.fact.origin.occ in after.occs && after.occs[e.fact.origin.occ].posted == Some(e.id))
            && (e.fact.account.Some? ==>
                  && e.fact.account.value in before.accounts
                  && after.accounts
                     == before.accounts[e.fact.account.value := before.accounts[e.fact.account.value] + e.fact.delta])
            && (e.fact.account.None? ==> after.accounts == before.accounts)
  {
    hide *;
    var t := s.txns[tid];
    InvGives(s, base, tid);
    CommitStepIs(s, cfg, tid, order);
    HasPending(t);
    BookClaims(s.tables, t, t.stage.effect.entry, t.stage.effect.balance);
    BookedRows(s.tables, t.stage.effect.entry, t.stage.effect.balance);
    BookedOccurrence(s.tables, t.stage.effect.entry, t.stage.effect.balance);
  }

  // ---- No deadlock ----

  // How deep a waiting transaction is: who it waits for is less deep.
  function Level(t: Txn): nat {
    match Wants(t)
    case None => 0
    case Some(AccountRow(_)) => 1
    case Some(OccRow(_)) => if t.request.Post? || t.request.Pay? then 2 else 3
    case Some(SubRow(_)) => 4
  }

  // Whoever waits for an occurrence in order to pay it holds its subscription.
  lemma PayerHoldsSubscription(t: Tables, waiting: Txn, o: nat)
    requires StageOk(t, waiting) && HoldsRows(t, waiting) && Wants(waiting) == Some(OccRow(o)) && o in t.occs
    ensures (waiting.request.Post? || waiting.request.Pay?) && SubOf(t, o).Some?
        ==> SubRow(SubOf(t, o).value) in waiting.held
  {
    if waiting.stage.WantNext? {
      assert RowOf(t, waiting.stage.todo[0], waiting.request.sub);
    }
  }

  // Whoever locks the occurrences of a period holds their subscription.
  lemma ListerHoldsSubscription(t: Tables, holder: Txn, o: nat)
    requires StageOk(t, holder) && HoldsRows(t, holder) && OccRow(o) in holder.held
    ensures o in t.occs
    ensures holder.stage.WantNext? ==> SubOf(t, o).Some? && SubRow(SubOf(t, o).value) in holder.held
  {
  }

  // Locks are taken subscription first, then occurrence, then account, so
  // waiting always goes down.
  lemma WaitsDescend(t: Tables, waiting: Txn, holder: Txn)
    requires StageOk(t, waiting) && HoldsRows(t, waiting) && StageOk(t, holder) && HoldsRows(t, holder)
    requires waiting.held !! holder.held && Wants(waiting).Some? && Wants(waiting).value in holder.held
    ensures Level(holder) < Level(waiting)
  {
    match Wants(waiting).value
    case AccountRow(_) =>
    case SubRow(_) =>
    case OccRow(o) =>
      ListerHoldsSubscription(t, holder, o);
      PayerHoldsSubscription(t, waiting, o);
  }

  predicate Unfinished(txns: map<nat, Txn>, tid: nat) { tid in txns && !txns[tid].stage.Done? }

  lemma HolderIsUnfinished(t: Tables, txn: Txn, r: Resource)
    requires StageOk(t, txn) && r in txn.held
    ensures !txn.stage.Done?
  {
  }

  // Following who waits for whom ends at a transaction that can run.
  lemma {:induction false} SomeoneCanRun(s: State, base: map<nat, int>, tid: nat) returns (runner: nat)
    requires Inv(s, base) && Unfinished(s.txns, tid)
    ensures Unfinished(s.txns, runner) && !Blocked(s.txns, runner)
    decreases Level(s.txns[tid])
  {
    if Blocked(s.txns, tid) {
      var holder :| holder in s.txns && holder != tid && Wants(s.txns[tid]).value in s.txns[holder].held;
      InvGives(s, base, tid);
      InvGives(s, base, holder);
      assert s.txns[tid].held !! s.txns[holder].held;
      HolderIsUnfinished(s.tables, s.txns[holder], Wants(s.txns[tid]).value);
      hide Inv, StageOk, HoldsRows, Paired, Balanced, PendingOk, TxnsOk, Exclusive, Level, Blocked;
      WaitsDescend(s.tables, s.txns[tid], s.txns[holder]);
      runner := SomeoneCanRun(s, base, holder);
    } else {
      runner := tid;
    }
  }

  lemma {:induction false} FirstOf(t: Tables, s: set<nat>) returns (o: nat)
    requires s != {} && s <= t.occs.Keys
    ensures o in s && forall p | p in s :: ComesFirst(t, o, p)
  {
    var p :| p in s;
    if s - {p} == {} {
      assert s == {p};
      o := p;
    } else {
      var first := FirstOf(t, s - {p});
      o := if ComesFirst(t, first, p) then first else p;
      forall q | q in s
        ensures ComesFirst(t, o, q)
      {
        assert q == p || q in s - {p};
      }
    }
  }

  lemma {:induction false} SomeOrder(t: Tables, s: set<nat>) returns (order: seq<nat>)
    requires s <= t.occs.Keys
    ensures Enumerates(order, s) && InOrder(t, order)
  {
    if s == {} {
      order := [];
    } else {
      var o := FirstOf(t, s);
      var rest := SomeOrder(t, s - {o});
      order := [o] + rest;
    }
  }

  function StagesLeft(stage: Stage): nat {
    match stage
    case Begin => 7
    case WantSub(_) => 6
    case List => 5
    case WantNext(_, _, _) => 4
    case WantOcc(_) => 4
    case Insert(_) => 3
    case Credit(_) => 2
    case Commit(_) => 1
    case Done => 0
  }

  // Strictly nearer to its end, so a transaction takes finitely many steps.
  predicate Nearer(after: Stage, before: Stage) {
    || StagesLeft(after) < StagesLeft(before)
    || (after.WantNext? && before.WantNext? && |after.todo| < |before.todo|)
  }

  lemma LocalNearer(t: Tables, cfg: Config, next: nat, txn: Txn, order: seq<nat>)
    requires StageOk(t, txn) && !txn.stage.Done? && !txn.stage.Commit?
    requires txn.stage.List? ==> Lists(t, cfg, txn.request.sub, order)
    ensures Nearer(Local(t, cfg, next, txn, order).stage, txn.stage)
  {
    hide Lists, OccsOf, Claims, FactOf, RowOf, NoOccHeld, NoAccountHeld;
  }

  // A transaction that is not blocked moves on towards its end.
  lemma RunnerMoves(s: State, cfg: Config, base: map<nat, int>, tid: nat, order: seq<nat>)
    requires Inv(s, base) && Unfinished(s.txns, tid) && !Blocked(s.txns, tid)
    requires s.txns[tid].stage.List? ==> Lists(s.tables, cfg, s.txns[tid].request.sub, order)
    ensures tid in Step(s, cfg, tid, order).txns && Nearer(Step(s, cfg, tid, order).txns[tid].stage, s.txns[tid].stage)
  {
    InvGives(s, base, tid);
    if s.txns[tid].stage.Commit? {
      hide Inv, StageOk, HoldsRows, Apply, Skipped;
    } else {
      LocalNearer(s.tables, cfg, s.next, s.txns[tid], order);
      LocalStepIs(s, cfg, tid, order);
      hide Inv, StageOk, HoldsRows, Local, Step, Nearer;
    }
  }

  // No reachable state is deadlocked: while some transaction is unfinished,
  // some unfinished transaction can take a step that brings it nearer its end.
  lemma NoDeadlock(s: State, cfg: Config, base: map<nat, int>, tid: nat) returns (runner: nat, order: seq<nat>)
    requires Inv(s, base) && Unfinished(s.txns, tid)
    ensures Unfinished(s.txns, runner)
    ensures runner in Step(s, cfg, runner, order).txns
    ensures Nearer(Step(s, cfg, runner, order).txns[runner].stage, s.txns[runner].stage)
  {
    runner := SomeoneCanRun(s, base, tid);
    InvGives(s, base, runner);
    order := [];
    if s.txns[runner].stage.List? {
      assert s.txns[runner].request.Post?;
      order := SomeOrder(s.tables, OccsOf(s.tables, cfg, s.txns[runner].request.sub));
    }
    hide *;
    RunnerMoves(s, cfg, base, runner, order);
  }
}
