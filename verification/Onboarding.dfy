// The first state of a user's ledger (app/services/onboarding_v10.py).
module Onboarding {
  import opened Wrappers
  import opened Calendar
  import opened Database
  import opened Ledger

  datatype FirstAccount = FirstAccount(bank: string, balance: int, primary: bool)

  const INCOME_MAX := 10_000_000_000

  const SEED_CODES: seq<string> := ["food", "cafe", "home", "transit", "fun", "gifts", "health", "subs"]

  const SEED_NAMES: seq<string> :=
    ["ПРОДУКТЫ", "КАФЕ", "ДОМ", "ТРАНСПОРТ", "РАЗВЛЕЧ.", "ПОДАРКИ", "ЗДОРОВЬЕ", "ПОДПИСКИ"]

  // The adjustment category is seeded last.
  const SEED_COUNT: nat := 9

  // ---- What is refused ----

  predicate IncomeOk(income: int) { 0 < income <= INCOME_MAX }

  predicate PlansOk(plans: map<string, int>, income: int) {
    forall c | c in plans :: c in SEED_CODES && 0 <= plans[c] <= income * 4
  }

  function PlanOf(plans: map<string, int>, code: string): int { if code in plans then plans[code] else 0 }

  // The sum of the first n plans, in the order of the codes.
  function SeedSum(plans: map<string, int>, n: nat): int
    requires n <= |SEED_CODES|
  {
    if n == 0 then 0 else SeedSum(plans, n - 1) + PlanOf(plans, SEED_CODES[n - 1])
  }

  predicate AtMostOnePrimary(accounts: seq<FirstAccount>) {
    forall i, j | 0 <= i < j < |accounts| :: !(accounts[i].primary && accounts[j].primary)
  }

  predicate AccountsAccepted(accounts: seq<FirstAccount>) {
    && |accounts| > 0
    && (forall i | 0 <= i < |accounts| :: 1 <= |accounts[i].bank| <= 40)
    && AtMostOnePrimary(accounts)
  }

  // The explicitly flagged account, else the first one.
  function ChosenPrimary(accounts: seq<FirstAccount>): nat {
    if |accounts| == 0 then 0
    else if accounts[|accounts| - 1].primary then |accounts| - 1
    else ChosenPrimary(accounts[..|accounts| - 1])
  }

  function RefuseOnboarding(db: Db, consent: bool, income: int, plans: map<string, int>,
                            accounts: seq<FirstAccount>): Option<Error> {
    if !consent then Some(ConsentRequired)
    else if !IncomeOk(income) then Some(BadIncome)
    else if !PlansOk(plans, income) then Some(BadPlans)
    else if SeedSum(plans, |SEED_CODES|) > income then Some(PlanExceedsIncome)
    else if !AccountsAccepted(accounts) then Some(BadAccounts)
    else if |db.accounts| > 0 then Some(OnboardingConflict)
    else None
  }

  // ---- What is written ----

  // The first n accounts, numbered on from the next free id.
  function WithAccounts(m: map<nat, Account>, next: nat, accounts: seq<FirstAccount>, chosen: nat,
      n: nat): map<nat, Account>
    requires n <= |accounts|
  {
    if n == 0 then m
    else
      var row := Account(accounts[n - 1].balance, n - 1 == chosen);
      WithAccounts(m, next, accounts, chosen, n - 1)[next + n - 1 := row]
  }

  function TotalOf(accounts: seq<FirstAccount>, n: nat): int
    requires n <= |accounts|
  {
    if n == 0 then 0 else TotalOf(accounts, n - 1) + accounts[n - 1].balance
  }

  function SeedCode(k: nat): Code
    requires k < SEED_COUNT
  {
    if k < |SEED_CODES| then Ordinary(SEED_CODES[k]) else Adjustment
  }

  function SeedName(k: nat): string
    requires k < SEED_COUNT
  {
    if k < |SEED_NAMES| then SEED_NAMES[k] else ADJUSTMENT_NAME
  }

  function SeedPlan(plans: map<string, int>, k: nat): int
    requires k < SEED_COUNT
  {
    if k < |SEED_CODES| then PlanOf(plans, SEED_CODES[k]) else 0
  }

  // The row onboarding keeps for seed k, if there is one.
  function SeedRow(db: Db, k: nat): Option<nat>
    requires k < SEED_COUNT
  {
    FirstWithCode(db.categories, SeedCode(k), db.nextCategory)
  }

  // An existing row is unarchived and takes the plan; only the adjustment row
  // gets its name and kind back.
  function Reseeded(row: Category, plan: int): Category {
    if row.code.Adjustment? then Category(ADJUSTMENT_NAME, Expense, false, row.code, plan)
    else row.(plan := plan, archived := false)
  }

  // Refresh the row of seed k or insert it; the two unique indexes may refuse.
  function SeedCategory(db: Db, plans: map<string, int>, k: nat): Result<Db, Error>
    requires k < SEED_COUNT
  {
    var found := SeedRow(db, k);
    var id := if found.Some? then found.value else db.nextCategory;
    var row := if found.Some? then Reseeded(db.categories[found.value], SeedPlan(plans, k))
               else Category(SeedName(k), Expense, false, SeedCode(k), SeedPlan(plans, k));
    if LiveClash(db.categories, id, row) then Err(IntegrityError)
    else Ok(db.(categories := db.categories[id := row],
                nextCategory := if found.Some? then db.nextCategory else db.nextCategory + 1))
  }

  function Seeded(db: Db, plans: map<string, int>, n: nat): Result<Db, Error>
    requires n <= SEED_COUNT
  {
    if n == 0 then Ok(db)
    else
      match Seeded(db, plans, n - 1)
      case Err(e) => Err(e)
      case Ok(before) => SeedCategory(before, plans, n - 1)
  }

  function Opened(db: Db, accounts: seq<FirstAccount>): Db {
    db.(accounts := WithAccounts(db.accounts, db.nextAccount, accounts, ChosenPrimary(accounts), |accounts|),
        nextAccount := db.nextAccount + |accounts|)
  }

  // An active period is left alone.
  function EnsurePeriod(db: Db, starting: int, today: Date): Result<Db, Error> {
    if ActivePeriod(db).Some? then Ok(db)
    else
      match CreateFirstPeriod(db, starting, today)
      case Err(e) => Err(e)
      case Ok((after, _)) => Ok(after)
  }

  function CompleteOnboarding(db: Db, consent: bool, income: int, plans: map<string, int>,
                              accounts: seq<FirstAccount>, today: Date): Result<Db, Error> {
    var refused := RefuseOnboarding(db, consent, income, plans, accounts);
    if refused.Some? then Err(refused.value)
    else if exists i | 0 <= i < |accounts| :: !InRange(accounts[i].balance) then Err(IntegrityError)
    else
      match Seeded(Opened(db.(income := Some(income)), accounts), plans, SEED_COUNT)
      case Err(e) => Err(e)
      case Ok(seeded) => EnsurePeriod(seeded, TotalOf(accounts, |accounts|), today)
  }
}
