// Paying recurring charges under concurrency: transactions that lock rows, read
// them again under the lock, write, and commit (app/services/subscriptions.py).
//
// Rows are locked with SELECT ... FOR UPDATE or by UPDATE and stay locked until
// the transaction ends; what a transaction writes is seen by others when it
// commits. The account is updated in place from its committed value.
module PostingProtocol {
  import opened Wrappers

  // ---- Committed rows ----

  datatype Occ = Occ(sub: Option<nat>, period: nat, delta: int, date: int, posted: Option<nat>)

  datatype Sub = Sub(active: bool, account: Option<nat>, delta: int, posted: Option<nat>)

  datatype Origin = OfOccurrence(occ: nat) | OfSubscription(sub: nat)

  // An actual transaction and what it posts.
  datatype Fact = Fact(origin: Origin, account: Option<nat>, delta: int)

  datatype Tables = Tables(subs: map<nat, Sub>, occs: map<nat, Occ>, accounts: map<nat, int>, facts: map<nat, Fact>)

  // What no transaction here changes.
  datatype Config = Config(primary: Option<nat>, activePeriod: Option<nat>, bounds: map<nat, (int, int)>)

  // ---- Transactions ----

  datatype Resource = SubRow(sub: nat) | OccRow(occ: nat) | AccountRow(account: nat)

  datatype Request = Post(sub: nat) | Pay(occ: nat, paid: Option<int>) | Skip(occ: nat) | Postpone(occ: nat, date: int)

  datatype Entry = Entry(id: nat, fact: Fact)

  // What a transaction makes visible when it commits.
  datatype Effect = Book(entry: Entry, balance: int) | Remove(occ: nat) | Move(occ: nat, date: int)

  datatype Stage =
    | Begin
    | WantSub(sub: nat)
    | List
    | WantNext(todo: seq<nat>, due: Option<nat>, found: bool)
    | WantOcc(occ: nat)
    | Insert(origin: Origin)
    | Credit(entry: Entry)
    | Commit(effect: Effect)
    | Done

  datatype Txn = Txn(request: Request, stage: Stage, held: set<Resource>)

  datatype State = State(tables: Tables, next: nat, skipped: set<nat>, txns: map<nat, Txn>)

  // The lock the next step of a transaction needs.
  function Wants(t: Txn): Option<Resource> {
    match t.stage
    case WantSub(x) => Some(SubRow(x))
    case WantNext(todo, _, _) => if |todo| > 0 then Some(OccRow(todo[0])) else None
    case WantOcc(o) => Some(OccRow(o))
    case Credit(e) => if e.fact.account.Some? then Some(AccountRow(e.fact.account.value)) else None
    case _ => None
  }

  predicate HeldByAnother(txns: map<nat, Txn>, tid: nat, r: Resource) {
    exists u | u in txns :: u != tid && r in txns[u].held
  }

  predicate Blocked(txns: map<nat, Txn>, tid: nat)
    requires tid in txns
  {
    Wants(txns[tid]).Some? && HeldByAnother(txns, tid, Wants(txns[tid]).value)
  }

  // ---- One step of one transaction ----

  function OccsOf(tables: Tables, cfg: Config, sub: nat): set<nat> {
    set o | o in tables.occs && tables.occs[o].sub == Some(sub) && cfg.activePeriod == Some(tables.occs[o].period)
  }

  predicate Enumerates(order: seq<nat>, s: set<nat>) {
    (forall k | 0 <= k < |order| :: order[k] in s) && (forall o | o in s :: o in order)
  }

  // ORDER BY planned_date, id.
  predicate ComesFirst(tables: Tables, o: nat, p: nat)
    requires o in tables.occs && p in tables.occs
  {
    tables.occs[o].date < tables.occs[p].date || (tables.occs[o].date == tables.occs[p].date && o <= p)
  }

  predicate InOrder(tables: Tables, order: seq<nat>)
    requires forall k | 0 <= k < |order| :: order[k] in tables.occs
  {
    forall i, j | 0 <= i < j < |order| :: ComesFirst(tables, order[i], order[j])
  }

  // A reading of the subscription's occurrences in the active period.
  predicate Lists(tables: Tables, cfg: Config, sub: nat, order: seq<nat>) {
    Enumerates(order, OccsOf(tables, cfg, sub)) && InOrder(tables, order)
  }

  // The subscription row an occurrence points to.
  function SubOf(tables: Tables, o: nat): Option<nat>
    requires o in tables.occs
  {
    if tables.occs[o].sub.Some? && tables.occs[o].sub.value in tables.subs then tables.occs[o].sub else None
  }

  // The account comes from the subscription, else it is the primary one.
  function FactOf(tables: Tables, cfg: Config, request: Request, origin: Origin): Fact
    requires match origin case OfOccurrence(o) => o in tables.occs case OfSubscription(x) => x in tables.subs
  {
    match origin
    case OfSubscription(x) => Fact(origin, tables.subs[x].account, tables.subs[x].delta)
    case OfOccurrence(o) =>
      var sub := SubOf(tables, o);
      var account := if sub.Some? && tables.subs[sub.value].account.Some? then tables.subs[sub.value].account
          else cfg.primary;
      Fact(origin, account, if request.Pay? && request.paid.Some? then request.paid.value else tables.occs[o].delta)
  }

  function Finish(t: Txn): Txn { t.(stage := Done, held := {}) }

  function FirstStage(tables: Tables, request: Request): Stage {
    match request
    case Post(x) => WantSub(x)
    case Pay(o, _) =>  // an unlocked read, only for the subscription id
      if o !in tables.occs then Done
      else if tables.occs[o].sub.Some? then WantSub(tables.occs[o].sub.value) else WantOcc(o)
    case Skip(o) => WantOcc(o)
    case Postpone(o, _) => WantOcc(o)
  }

  // SELECT subscription FOR UPDATE.
  function LockSub(tables: Tables, t: Txn, x: nat): Txn {
    match t.request
    case Post(_) =>
      if x in tables.subs && tables.subs[x].active then t.(stage := List, held := t.held + {SubRow(x)}) else Finish(t)
    case Pay(o, _) => t.(stage := WantOcc(o), held := if x in tables.subs then t.held + {SubRow(x)} else t.held)
    case _ => Finish(t)
  }

  // Lock the next occurrence of the period; a row deleted meanwhile drops out.
  // The rows stay in the order they were read in, whatever has changed since.
  function LockNext(tables: Tables, t: Txn, todo: seq<nat>, due: Option<nat>, found: bool): Txn
    requires |todo| > 0
  {
    var o := todo[0];
    if o !in tables.occs then t.(stage := WantNext(todo[1..], due, found))
    else
      var first := if due.None? && tables.occs[o].posted.None? then Some(o) else due;
      t.(stage := WantNext(todo[1..], first, true), held := t.held + {OccRow(o)})
  }

  // Pay the due occurrence; all paid means refuse; none means post directly.
  function Choose(tables: Tables, t: Txn, due: Option<nat>, found: bool): Txn {
    if due.Some? then t.(stage := Insert(OfOccurrence(due.value)))
    else if found || !t.request.Post? then Finish(t)
    else
      var x := t.request.sub;
      if x !in tables.subs || tables.subs[x].posted.Some? || tables.subs[x].account.None? then Finish(t)
      else t.(stage := Insert(OfSubscription(x)))
  }

  // Lock one occurrence and look again under the lock.
  function LockOcc(tables: Tables, cfg: Config, t: Txn, o: nat): Txn {
    if o !in tables.occs || tables.occs[o].posted.Some? then Finish(t)
    else
      var locked := t.(held := t.held + {OccRow(o)});
      match t.request
      case Pay(_, _) => locked.(stage := Insert(OfOccurrence(o)))
      case Skip(_) => locked.(stage := Commit(Remove(o)))
      case Postpone(_, date) =>
        var p := tables.occs[o].period;
        if p in cfg.bounds && cfg.bounds[p].0 <= date <= cfg.bounds[p].1 then locked.(stage := Commit(Move(o, date)))
            else Finish(t)
      case Post(_) => Finish(t)
  }

  // UPDATE account SET balance = balance + delta.
  function CreditAccount(tables: Tables, t: Txn, e: Entry): Txn {
    if e.fact.account.None? then t.(stage := Commit(Book(e, 0)))
    else
      var a := e.fact.account.value;
      if a !in tables.accounts then Finish(t)
      else t.(stage := Commit(Book(e, tables.accounts[a] + e.fact.delta)), held := t.held + {AccountRow(a)})
  }

  function InsertFact(tables: Tables, cfg: Config, next: nat, t: Txn, origin: Origin): Txn {
    if (match origin case OfOccurrence(o) => o !in tables.occs case OfSubscription(x) => x !in tables.subs)
        then Finish(t)
    else
      var fact := FactOf(tables, cfg, t.request, origin);
      if fact.account.Some? && fact.account.value !in tables.accounts then Finish(t)
      else t.(stage := Credit(Entry(next, fact)))
  }

  function Local(tables: Tables, cfg: Config, next: nat, t: Txn, order: seq<nat>): Txn {
    match t.stage
    case Begin => t.(stage := FirstStage(tables, t.request))
    case WantSub(x) => LockSub(tables, t, x)
    case List =>
      if t.request.Post? && Lists(tables, cfg, t.request.sub, order)
          then t.(stage := WantNext(order, None, false)) else t
    case WantNext(todo, due, found) =>
      if |todo| > 0 then LockNext(tables, t, todo, due, found) else Choose(tables, t, due, found)
    case WantOcc(o) => LockOcc(tables, cfg, t, o)
    case Insert(origin) => InsertFact(tables, cfg, next, t, origin)
    case Credit(e) => CreditAccount(tables, t, e)
    case Commit(_) => t
    case Done => t
  }

  function Linked(occs: map<nat, Occ>, o: nat, id: nat): map<nat, Occ> {
    if o in occs then occs[o := occs[o].(posted := Some(id))] else occs
  }

  function Mirrored(subs: map<nat, Sub>, x: Option<nat>, id: nat): map<nat, Sub> {
    if x.Some? && x.value in subs then subs[x.value := subs[x.value].(posted := Some(id))] else subs
  }

  function Apply(tables: Tables, effect: Effect): Tables {
    match effect
    case Remove(o) => tables.(occs := tables.occs - {o})
    case Move(o, date) => if o in tables.occs then tables.(occs := tables.occs[o := tables.occs[o].(date := date)])
        else tables
    case Book(e, balance) =>
      var accounts := if e.fact.account.Some? then tables.accounts[e.fact.account.value := balance]
          else tables.accounts;
      var facts := tables.facts[e.id := e.fact];
      match e.fact.origin
      case OfSubscription(x) => tables.(accounts := accounts, facts := facts,
          subs := Mirrored(tables.subs, Some(x), e.id))
      case OfOccurrence(o) =>
        var sub := if o in tables.occs then tables.occs[o].sub else None;
        Tables(Mirrored(tables.subs, sub, e.id), Linked(tables.occs, o, e.id), accounts, facts)
  }

  // ---- Schedules ----

  datatype Event = Start(tid: nat, request: Request) | Advance(tid: nat, order: seq<nat>) | Abort(tid: nat)

  function Skipped(skipped: set<nat>, effect: Effect): set<nat> {
    if effect.Remove? then skipped + {effect.occ} else skipped
  }

  function Step(s: State, cfg: Config, tid: nat, order: seq<nat>): State {
    if tid !in s.txns || Blocked(s.txns, tid) then s
    else
      var t := s.txns[tid];
      if t.stage.Commit? then
        State(Apply(s.tables, t.stage.effect), s.next, Skipped(s.skipped, t.stage.effect), s.txns[tid := Finish(t)])
      else
        s.(txns := s.txns[tid := Local(s.tables, cfg, s.next, t, order)],
           next := if t.stage.Insert? then s.next + 1 else s.next)
  }

  // Whatever arrives, whoever runs next, and whoever fails at any point.
  function Happens(s: State, cfg: Config, e: Event): State {
    match e
    case Start(tid, request) => if tid in s.txns then s else s.(txns := s.txns[tid := Txn(request, Begin, {})])
    case Advance(tid, order) => Step(s, cfg, tid, order)
    case Abort(tid) => if tid in s.txns then s.(txns := s.txns[tid := Finish(s.txns[tid])]) else s
  }

  function Schedule(s: State, cfg: Config, events: seq<Event>): State {
    if |events| == 0 then s else Happens(Schedule(s, cfg, events[..|events| - 1]), cfg, events[|events| - 1])
  }
}
