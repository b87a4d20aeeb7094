// Whole runs: any sequence of service calls, each committed or rolled back.
module RunTheorems {
  import opened Wrappers
  import opened Calendar
  import opened Database
  import opened Ledger
  import opened LedgerTheorems
  import opened PostingTheorems
  import opened BatchTheorems
  import opened Balances
  import opened BalanceTheorems
  import opened Plans
  import opened PlanTheorems
  import opened RecurringTheorems
  import opened AccountTheorems

  // ---- Calls ----

  // parent_txn_id is never passed by the callers of create_actual_v10.
  datatype Call =
    | Create(kind: Kind, amount: int, category: nat, date: Date, account: Option<nat>)
    | Update(id: nat, patch: Patch)
    | Delete(id: nat)
    | ReconcileTo(target: int)
    | Post(id: nat, date: Date)
    | Unpost(id: nat)
    | PostAll(ids: seq<nat>, on: Option<Date>)
    | Pay(id: nat, date: Date, paid: Option<int>)
    | PostSub(sub: nat)
    | UnpostSub(sub: nat)
    | Skip(id: nat)
    | Postpone(id: nat, date: Date)
    | Charge(sub: nat)
    | AddTo(sub: nat, period: nat)
    | PlanMonth(plans: seq<(nat, int)>)
    | UseTemplate(period: nat)
    | OpenAccount(balance: int, primary: bool)
    | EditAccount(id: nat, flag: Option<bool>, newBalance: Option<int>)
    | CloseAccount(id: nat)

  predicate AboutAccounts(c: Call) { c.OpenAccount? || c.EditAccount? || c.CloseAccount? }

  function Forget<T>(r: Outcome<T>): Result<Db, Error> {
    match r
    case Ok((db, _)) => Ok(db)
    case Err(e) => Err(e)
  }

  function Step(db: Db, c: Call, today: Date): Result<Db, Error> {
    match c
    case Create(kind, amount, category, date, account) =>
      Forget(CreateActual(db, NewActual(kind, amount, category, date, account, None), today))
    case Update(id, patch) => UpdateActual(db, id, patch, today)
    case Delete(id) => DeleteActual(db, id)
    case ReconcileTo(target) => Forget(Reconcile(db, target, today))
    case Post(id, date) => Forget(PostPlanned(db, id, date, today))
    case Unpost(id) => UnpostPlanned(db, id)
    case PostAll(ids, date) => Forget(PostBatch(db, ids, date, today))
    case Pay(id, date, amount) => Forget(PayOccurrence(db, id, date, amount, today))
    case PostSub(sub) => Forget(PostSubscription(db, sub, today))
    case UnpostSub(sub) => UnpostSubscription(db, sub)
    case Skip(id) => SkipOccurrence(db, id)
    case Postpone(id, date) => PostponeOccurrence(db, id, date)
    case Charge(sub) => Forget(ChargeSubscription(db, sub, today))
    case AddTo(sub, period) => Materialise(db, sub, period)
    case PlanMonth(plans) => UpdatePlanMonth(db, plans)
    case UseTemplate(period) => Forget(ApplyTemplate(db, period))
    case OpenAccount(balance, primary) => Forget(CreateAccount(db, balance, primary))
    case EditAccount(id, primary, balance) => UpdateAccount(db, id, primary, balance)
    case CloseAccount(id) => DeleteAccount(db, id)
  }

  // The route commits a call that returns and rolls back one that raises.
  function Commit(db: Db, c: Call, today: Date): Db {
    match Step(db, c, today)
    case Ok(after) => after
    case Err(_) => db
  }

  // A run: calls with the day each of them is made on.
  function Run(db: Db, calls: seq<(Call, Date)>): Db {
    if |calls| == 0 then db
    else Commit(Run(db, calls[..|calls| - 1]), calls[|calls| - 1].0, calls[|calls| - 1].1)
  }

  // ---- The opening balance of every account along a run ----

  // What editing an account does to its opening balance.
  function Edited(o: map<nat, int>, db: Db, id: nat, balance: Option<int>): map<nat, int> {
    if balance.Some? && id in o && id in db.accounts
    then o[id := o[id] + balance.value - db.accounts[id].balance] else o
  }

  // Opening an account sets its opening balance, editing the balance moves it,
  // closing the account ends it; nothing else touches it.
  function OpeningsAfter(o: map<nat, int>, db: Db, c: Call, today: Date): map<nat, int> {
    if Step(db, c, today).Err? then o
    else
      match c
      case OpenAccount(balance, _) => o[db.nextAccount := balance]
      case EditAccount(id, _, balance) => Edited(o, db, id, balance)
      case CloseAccount(id) => o - {id}
      case _ => o
  }

  function OpeningsAlong(o: map<nat, int>, db: Db, calls: seq<(Call, Date)>): map<nat, int> {
    if |calls| == 0 then o
    else
      var rest := calls[..|calls| - 1];
      OpeningsAfter(OpeningsAlong(o, db, rest), Run(db, rest), calls[|calls| - 1].0, calls[|calls| - 1].1)
  }

  // Every cached balance is its opening balance plus the fold over live rows.
  predicate Agrees(db: Db, o: map<nat, int>) {
    && db.accounts.Keys == o.Keys
    && forall a | a in db.accounts :: db.accounts[a].balance == o[a] + Fold(db, a)
  }

  lemma OpeningsOfAgreement(db: Db, o: map<nat, int>)
    requires Agrees(db, o)
    ensures db.accounts.Keys == o.Keys && forall a | a in db.accounts :: Opening(db, a) == o[a]
  {
    hide Fold;
  }

  lemma AgreementByOpenings(db: Db, o: map<nat, int>)
    requires db.accounts.Keys == o.Keys && forall a | a in db.accounts :: Opening(db, a) == o[a]
    ensures Agrees(db, o)
  {
    hide Fold;
  }

  lemma AgreesFollows(before: Db, after: Db, o: map<nat, int>)
    requires Agrees(before, o) && KeepsOpenings(before, after)
    ensures Agrees(after, o)
  {
    OpeningsOfAgreement(before, o);
    hide Agrees, Opening;
    AgreementByOpenings(after, o);
  }

  // ---- One call ----

  lemma CorrectionSound(db: Db, id: nat, patch: Patch, today: Date)
    requires Wf(db) && Flat(db.actuals)
    ensures var r := UpdateActual(db, id, patch, today); r.Ok? ==> Sound(db, r.value)
  {
    hide Wf, Flat, UpdateActual, KeepsOpenings;
    UpdateActualSound(db, id, patch, today);
  }

  lemma RemovalSound(db: Db, id: nat)
    requires Wf(db) && Flat(db.actuals)
    ensures var r := DeleteActual(db, id); r.Ok? ==> Sound(db, r.value)
  {
    hide Wf, Flat, DeleteActual, KeepsOpenings;
    DeleteActualSound(db, id);
  }

  lemma MoneyStepSound(db: Db, c: Call, today: Date)
    requires Wf(db) && Flat(db.actuals) && !AboutAccounts(c)
    ensures var r := Step(db, c, today); r.Ok? ==> Sound(db, r.value)
  {
    hide Wf, Flat, Sound, CreateActual, UpdateActual, DeleteActual, Reconcile, PostPlanned, UnpostPlanned, PostBatch,
      PayOccurrence, PostSubscription, UnpostSubscription, SkipOccurrence, PostponeOccurrence, ChargeSubscription,
      Materialise, UpdatePlanMonth, ApplyTemplate;
    match c
    case Create(kind, amount, category, date, account) =>
      CreateActualSound(db, NewActual(kind, amount, category, date, account, None), today);
    case Update(id, patch) => CorrectionSound(db, id, patch, today);
    case Delete(id) => RemovalSound(db, id);
    case ReconcileTo(target) => ReconcileSound(db, target, today);
    case Post(id, date) => PostPlannedSound(db, id, date, today);
    case Unpost(id) => UnpostPlannedSound(db, id);
    case PostAll(ids, date) => BatchSound(db, ids, date, today);
    case Pay(id, date, amount) => PayOccurrenceSound(db, id, date, amount, today);
    case PostSub(sub) => PostSubscriptionSound(db, sub, today);
    case UnpostSub(sub) => UnpostSubscriptionSound(db, sub);
    case Skip(id) => SkipSound(db, id);
    case Postpone(id, date) => PostponeSound(db, id, date);
    case Charge(sub) => ChargeSubscriptionSound(db, sub, today);
    case AddTo(sub, period) => MaterialiseSound(db, sub, period);
    case PlanMonth(plans) => PlanMonthSound(db, plans);
    case UseTemplate(period) => ApplyTemplateSound(db, period);
  }

  // The ledger invariant: the schema holds, links are flat, and every cached
  // balance agrees with the rows.
  predicate Ledgered(db: Db, o: map<nat, int>) { Wf(db) && Flat(db.actuals) && Agrees(db, o) }

  lemma OpenAccountLedgered(db: Db, o: map<nat, int>, balance: int, primary: bool)
    requires Ledgered(db, o) && CreateAccount(db, balance, primary).Ok?
    ensures var (after, id) := CreateAccount(db, balance, primary).value;
            id == db.nextAccount && Ledgered(after, o[id := balance])
  {
    hide Wf, Flat, Agrees, Opening, CreateAccount;
    var (after, id) := CreateAccount(db, balance, primary).value;
    OpeningsOfAgreement(db, o);
    CreateAccountOpens(db, balance, primary);
    AgreementByOpenings(after, o[id := balance]);
  }

  lemma EditAccountLedgered(db: Db, o: map<nat, int>, id: nat, primary: Option<bool>, balance: Option<int>)
    requires Ledgered(db, o) && UpdateAccount(db, id, primary, balance).Ok?
    ensures Ledgered(UpdateAccount(db, id, primary, balance).value, Edited(o, db, id, balance))
  {
    assert id in db.accounts;
    hide Wf, Flat, Agrees, Opening, UpdateAccount;
    OpeningsOfAgreement(db, o);
    UpdateAccountShifts(db, id, primary, balance);
    AgreementByOpenings(UpdateAccount(db, id, primary, balance).value, Edited(o, db, id, balance));
  }

  lemma CloseAccountLedgered(db: Db, o: map<nat, int>, id: nat)
    requires Ledgered(db, o) && DeleteAccount(db, id).Ok?
    ensures Ledgered(DeleteAccount(db, id).value, o - {id})
  {
    hide Wf, Flat, Agrees, Opening, DeleteAccount;
    OpeningsOfAgreement(db, o);
    DeleteAccountCloses(db, id);
    AgreementByOpenings(DeleteAccount(db, id).value, o - {id});
  }

  lemma AccountStepLedgered(db: Db, o: map<nat, int>, c: Call, today: Date)
    requires Ledgered(db, o) && AboutAccounts(c) && Step(db, c, today).Ok?
    ensures Ledgered(Step(db, c, today).value, OpeningsAfter(o, db, c, today))
  {
    hide Ledgered, CreateAccount, UpdateAccount, DeleteAccount;
    match c
    case OpenAccount(balance, primary) => OpenAccountLedgered(db, o, balance, primary);
    case EditAccount(id, primary, balance) => EditAccountLedgered(db, o, id, primary, balance);
    case CloseAccount(id) => CloseAccountLedgered(db, o, id);
  }

  lemma CallLedgered(db: Db, o: map<nat, int>, c: Call, today: Date)
    requires Ledgered(db, o)
    ensures Ledgered(Commit(db, c, today), OpeningsAfter(o, db, c, today))
  {
    if Step(db, c, today).Ok? {
      if AboutAccounts(c) {
        AccountStepLedgered(db, o, c, today);
      } else {
        MoneyStepSound(db, c, today);
        AgreesFollows(db, Step(db, c, today).value, o);
      }
    }
    hide Wf, Flat, Agrees, Step, KeepsOpenings;
  }

  // ---- Every run ----

  // On every run, whatever the calls and whichever of them fail, each cached
  // balance equals its opening balance plus the signed sum of its live rows,
  // and every constraint of the schema holds.
  lemma {:induction false} RunKeepsLedger(db: Db, o: map<nat, int>, calls: seq<(Call, Date)>)
    requires Ledgered(db, o)
    ensures Ledgered(Run(db, calls), OpeningsAlong(o, db, calls))
  {
    hide Ledgered, Commit, OpeningsAfter;
    if |calls| == 0 {
    } else {
      var rest := calls[..|calls| - 1];
      RunKeepsLedger(db, o, rest);
      CallLedgered(Run(db, rest), OpeningsAlong(o, db, rest), calls[|calls| - 1].0, calls[|calls| - 1].1);
    }
  }
}
