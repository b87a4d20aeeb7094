// What onboarding establishes, and the wallet law on every run from there
// (app/services/onboarding_v10.py).
module OnboardingTheorems {
  import opened Wrappers
  import opened Calendar
  import opened Sums
  import opened Database
  import opened Ledger
  import opened LedgerTheorems
  import opened AccountTheorems
  import opened Balances
  import opened WalletTheorems
  import opened PeriodTheorems
  import opened RunTheorems
  import opened FrameTheorems
  import opened Onboarding
  import opened SeedingTheorems

  // ---- Accounts ----

  // Exactly the first n accounts, numbered from `next`, each with its own
  // balance and only the chosen one primary.
  ghost predicate InOrder(m: map<nat, Account>, next: nat, accounts: seq<FirstAccount>, chosen: nat, n: nat)
    requires n <= |accounts|
  {
    && (forall a: nat :: a in m <==> next <= a < next + n)
    && (forall a | a in m :: m[a] == Account(accounts[a - next].balance, a == next + chosen))
  }

  lemma {:induction false} AccountsInOrder(next: nat, accounts: seq<FirstAccount>, chosen: nat, n: nat)
    requires n <= |accounts|
    ensures InOrder(WithAccounts(map[], next, accounts, chosen, n), next, accounts, chosen, n)
  {
    if n == 0 {
    } else {
      AccountsInOrder(next, accounts, chosen, n - 1);
    }
  }

  lemma AppendedBalance(m: map<nat, Account>, k: nat, row: Account)
    ensures Sum(BalanceOf(m[k := row]), k + 1) == Sum(BalanceOf(m), k) + row.balance
  {
    SumSame(BalanceOf(m), BalanceOf(m[k := row]), k);
  }

  lemma EmptyWallet(n: nat)
    ensures Sum(BalanceOf(map[]), n) == 0
  {
    SumZero(BalanceOf(map[]), n);
  }

  // The wallet of the new accounts is the sum the period will start from.
  lemma {:induction false} NewWallet(next: nat, accounts: seq<FirstAccount>, chosen: nat, n: nat)
    requires n <= |accounts|
    ensures Sum(BalanceOf(WithAccounts(map[], next, accounts, chosen, n)), next + n) == TotalOf(accounts, n)
  {
    hide Sum, BalanceOf;
    if n == 0 {
      EmptyWallet(next);
    } else {
      NewWallet(next, accounts, chosen, n - 1);
      AppendedBalance(WithAccounts(map[], next, accounts, chosen, n - 1), next + n - 1,
                      Account(accounts[n - 1].balance, n - 1 == chosen));
    }
  }

  lemma {:induction false} ChosenIsTheFlagged(accounts: seq<FirstAccount>)
    requires AtMostOnePrimary(accounts)
    ensures |accounts| > 0 ==> ChosenPrimary(accounts) < |accounts|
    ensures forall i | 0 <= i < |accounts| && accounts[i].primary :: ChosenPrimary(accounts) == i
    ensures (forall i | 0 <= i < |accounts| :: !accounts[i].primary) ==> ChosenPrimary(accounts) == 0
  {
    if |accounts| == 0 || accounts[|accounts| - 1].primary {
    } else {
      ChosenIsTheFlagged(accounts[..|accounts| - 1]);
    }
  }

  // Each new account opens with the balance it was given.
  function OwnBalances(m: map<nat, Account>): map<nat, int> { map a | a in m :: m[a].balance }

  lemma NoAccountsNoBookings(db: Db, a: nat)
    requires Wf(db) && db.accounts == map[]
    ensures Fold(db, a) == 0
  {
    assert forall i | i in db.actuals ::
        ActualRowOk(db.actuals, i, db.nextActual, db.periods.Keys, db.accounts.Keys);
    hide SignedDelta;
    SumZero(Share(db.actuals, a), db.nextActual);
  }

  lemma InOrderFits(m: map<nat, Account>, next: nat, accounts: seq<FirstAccount>, chosen: nat)
    requires InOrder(m, next, accounts, chosen, |accounts|) && chosen < |accounts|
    requires forall i | 0 <= i < |accounts| :: InRange(accounts[i].balance)
    ensures AccountsOk(m, next + |accounts|) && FirstPrimary(m, next + |accounts|) == Some(next + chosen)
  {
    hide FirstPrimary, InRange;
    assert next + chosen in m && m[next + chosen].primary;
    forall a | a in m
      ensures InRange(m[a].balance)
    {
      assert InRange(accounts[a - next].balance);
    }
  }

  lemma NewAccountsFit(next: nat, accounts: seq<FirstAccount>)
    requires AccountsAccepted(accounts) && forall i | 0 <= i < |accounts| :: InRange(accounts[i].balance)
    ensures var m := WithAccounts(map[], next, accounts, ChosenPrimary(accounts), |accounts|);
            && AccountsOk(m, next + |accounts|)
            && FirstPrimary(m, next + |accounts|) == Some(next + ChosenPrimary(accounts))
  {
    ChosenIsTheFlagged(accounts);
    AccountsInOrder(next, accounts, ChosenPrimary(accounts), |accounts|);
    var m := WithAccounts(map[], next, accounts, ChosenPrimary(accounts), |accounts|);
    InOrderFits(m, next, accounts, ChosenPrimary(accounts));
  }

  lemma UnbookedAgrees(db: Db)
    requires forall a | a in db.accounts :: Fold(db, a) == 0
    ensures Agrees(db, OwnBalances(db.accounts))
  {
    hide Fold;
  }

  // No row is booked yet, so every balance is an opening balance.
  lemma OpenedAgrees(db: Db, accounts: seq<FirstAccount>)
    requires Wf(db) && db.accounts == map[]
    ensures Agrees(Opened(db, accounts), OwnBalances(Opened(db, accounts).accounts))
  {
    var after := Opened(db, accounts);
    forall a | a in after.accounts
      ensures Fold(after, a) == 0
    {
      NoAccountsNoBookings(db, a);
      assert Fold(after, a) == Fold(db, a);
    }
    hide Wf, WithAccounts, ChosenPrimary, Fold;
    UnbookedAgrees(after);
  }

  lemma OpenedLedger(db: Db, accounts: seq<FirstAccount>)
    requires Wf(db) && Flat(db.actuals) && db.accounts == map[]
    requires AccountsAccepted(accounts) && forall i | 0 <= i < |accounts| :: InRange(accounts[i].balance)
    ensures Ledgered(Opened(db, accounts), OwnBalances(Opened(db, accounts).accounts))
  {
    hide Wf, Flat, WithAccounts, ChosenPrimary, Agrees, OwnBalances, AccountsAccepted, InRange, AccountsOk,
        FirstPrimary;
    NewAccountsFit(db.nextAccount, accounts);
    OpenedAgrees(db, accounts);
    GrownAccountsKeepWf(db, Opened(db, accounts));
  }

  lemma OpenedWallet(db: Db, accounts: seq<FirstAccount>)
    requires db.accounts == map[]
    requires AccountsAccepted(accounts) && forall i | 0 <= i < |accounts| :: InRange(accounts[i].balance)
    ensures Wallet(Opened(db, accounts)) == TotalOf(accounts, |accounts|)
    ensures PrimaryAccount(Opened(db, accounts)) == Some(db.nextAccount + ChosenPrimary(accounts))
  {
    hide WithAccounts, ChosenPrimary, AccountsAccepted, InRange, AccountsOk, FirstPrimary, Sum, TotalOf;
    NewAccountsFit(db.nextAccount, accounts);
    NewWallet(db.nextAccount, accounts, ChosenPrimary(accounts), |accounts|);
  }

  // ---- Categories ----

  predicate OnlyCategoriesGrew(before: Db, after: Db) {
    && after == before.(categories := after.categories, nextCategory := after.nextCategory)
    && before.categories.Keys <= after.categories.Keys
  }

  lemma SeedingOnlyGrowsCategories(db: Db, plans: map<string, int>)
    requires CategoriesOk(db.categories, db.nextCategory) && Seeded(db, plans, SEED_COUNT).Ok?
    ensures var after := Seeded(db, plans, SEED_COUNT).value;
            OnlyCategoriesGrew(db, after) && CategoriesOk(after.categories, after.nextCategory)
  {
    SeedingIsComplete(db, plans);
    hide Seeded, CategoriesOk, IsKept, LiveAs, IsNewSeed, SeedIsLive;
  }

  lemma GrownCategoriesKeepTheRest(before: Db, after: Db)
    requires OnlyCategoriesGrew(before, after)
    ensures Wallet(after) == Wallet(before) && PrimaryAccount(after) == PrimaryAccount(before)
    ensures after.accounts == before.accounts && after.actuals == before.actuals
    ensures after.periods == before.periods && after.nextPeriod == before.nextPeriod
        && after.cycleDay == before.cycleDay
  {
  }

  lemma GrownCategoriesKeepLedger(before: Db, after: Db, o: map<nat, int>)
    requires Ledgered(before, o) && OnlyCategoriesGrew(before, after)
    requires CategoriesOk(after.categories, after.nextCategory)
    ensures Ledgered(after, o)
  {
    assert forall a :: Fold(after, a) == Fold(before, a);
    hide Fold, AccountsOk, PeriodsOk, ActualsOk, PlannedRowsOk, PlannedLinksUnique, ChargeDatesUnique, SubLinksUnique,
        Flat, CategoriesOk;
  }

  // ---- The first period ----

  lemma FirstPeriodKeepsLedger(db: Db, o: map<nat, int>, starting: int, today: Date)
    requires Ledgered(db, o) && CreateFirstPeriod(db, starting, today).Ok?
    ensures var (after, p) := CreateFirstPeriod(db, starting, today).value;
            && Ledgered(after, o) && OnlyPeriodsGrew(db, after)
            && ActivePeriod(after) == Some(p) && after.periods[p].starting == starting
  {
    var row := NewPeriod(today, db.cycleDay, starting, today).(active := true);
    var after := InsertPeriod(db, row);
    InsertPeriodKeepsWf(db, row);
    assert forall a :: Fold(after, a) == Fold(db, a);
    hide NewPeriod, Fold, ActivePeriod, PeriodClashes, AccountsOk, ActualsOk, PlannedRowsOk, SubRowsOk,
      PlannedLinksUnique, ChargeDatesUnique, SubLinksUnique, PeriodsOk, CategoriesOk;
    TheActiveOne(after, db.nextPeriod);
  }

  // ---- Onboarding ----

  lemma OpenedKeepsTheRest(db: Db, accounts: seq<FirstAccount>)
    ensures var after := Opened(db, accounts);
            && after.periods == db.periods && after.nextPeriod == db.nextPeriod && after.cycleDay == db.cycleDay
            && after.categories == db.categories && after.nextCategory == db.nextCategory
  {
  }

  lemma WfCategories(db: Db)
    requires Wf(db)
    ensures CategoriesOk(db.categories, db.nextCategory)
  {
    hide AccountsOk, PeriodsOk, ActualsOk, PlannedRowsOk, PlannedLinksUnique, ChargeDatesUnique, SubRowsOk,
      SubLinksUnique, CategoriesOk;
  }

  // The state just before the period is seen to.
  function Ready(db: Db, plans: map<string, int>, accounts: seq<FirstAccount>): Result<Db, Error> {
    Seeded(Opened(db, accounts), plans, SEED_COUNT)
  }

  lemma ReadyLedger(db: Db, plans: map<string, int>, accounts: seq<FirstAccount>)
    requires Wf(db) && Flat(db.actuals) && db.accounts == map[]
    requires AccountsAccepted(accounts) && forall i | 0 <= i < |accounts| :: InRange(accounts[i].balance)
    requires Ready(db, plans, accounts).Ok?
    ensures var ready := Ready(db, plans, accounts).value;
            && Ledgered(ready, OwnBalances(ready.accounts)) && Wallet(ready) == TotalOf(accounts, |accounts|)
            && PrimaryAccount(ready) == Some(db.nextAccount + ChosenPrimary(accounts))
            && ready.periods == db.periods && ActivePeriod(ready) == ActivePeriod(db)
  {
    var ready := Ready(db, plans, accounts).value;
    WfCategories(db);
    OpenedKeepsTheRest(db, accounts);
    hide LatestOf, ActiveIds, Wf, Flat, Ledgered, Seeded, Opened, ChosenPrimary, TotalOf, AccountsAccepted, InRange,
      Wallet, PrimaryAccount, OnlyCategoriesGrew, OwnBalances, CategoriesOk;
    var filled := Opened(db, accounts);
    OpenedLedger(db, accounts);
    OpenedWallet(db, accounts);
    SeedingOnlyGrowsCategories(filled, plans);
    GrownCategoriesKeepLedger(filled, ready, OwnBalances(filled.accounts));
    GrownCategoriesKeepTheRest(filled, ready);
  }

  lemma SameActive(a: Db, b: Db)
    requires a.periods == b.periods && a.nextPeriod == b.nextPeriod
    ensures ActivePeriod(a) == ActivePeriod(b)
  {
  }

  lemma IncomeKeepsWf(db: Db, income: int)
    requires Wf(db)
    ensures Wf(db.(income := Some(income)))
  {
    hide AccountsOk, PeriodsOk, ActualsOk, PlannedRowsOk, SubRowsOk, PlannedLinksUnique, ChargeDatesUnique,
        SubLinksUnique, CategoriesOk;
  }

  lemma EnsurePeriodKeepsLedger(db: Db, o: map<nat, int>, starting: int, today: Date)
    requires Ledgered(db, o) && EnsurePeriod(db, starting, today).Ok?
    ensures var after := EnsurePeriod(db, starting, today).value;
            && Ledgered(after, o) && after.accounts == db.accounts
            && Wallet(after) == Wallet(db) && PrimaryAccount(after) == PrimaryAccount(db)
            && ActivePeriod(after).Some?
            && (if ActivePeriod(db).Some? then after.periods == db.periods
                else after.periods[ActivePeriod(after).value].starting == starting)
  {
    hide Ledgered, ActivePeriod, CreateFirstPeriod, Sum, FirstPrimary;
    if ActivePeriod(db).None? {
      FirstPeriodKeepsLedger(db, o, starting, today);
    }
  }

  lemma CompletedParts(db: Db, consent: bool, income: int, plans: map<string, int>, accounts: seq<FirstAccount>,
      today: Date)
    requires CompleteOnboarding(db, consent, income, plans, accounts, today).Ok?
    ensures db.accounts == map[] && AccountsAccepted(accounts)
    ensures forall i | 0 <= i < |accounts| :: InRange(accounts[i].balance)
    ensures var ready := Ready(db.(income := Some(income)), plans, accounts);
            && ready.Ok?
            && CompleteOnboarding(db, consent, income, plans, accounts, today)
               == EnsurePeriod(ready.value, TotalOf(accounts, |accounts|), today)
  {
    hide EnsurePeriod, Seeded, Opened, TotalOf, AccountsAccepted, PlansOk, SeedSum, InRange;
  }

  // What onboarding establishes: the ledger invariant with the given balances
  // as openings, the chosen account as the primary one, and, unless a period
  // was active already, an active period that starts from the whole wallet.
  lemma OnboardingOpensTheLedger(db: Db, consent: bool, income: int, plans: map<string, int>,
                                 accounts: seq<FirstAccount>, today: Date)
    requires Wf(db) && Flat(db.actuals) && CompleteOnboarding(db, consent, income, plans, accounts, today).Ok?
    ensures var after := CompleteOnboarding(db, consent, income, plans, accounts, today).value;
            && Ledgered(after, OwnBalances(after.accounts)) && Wallet(after) == TotalOf(accounts, |accounts|)
            && PrimaryAccount(after) == Some(db.nextAccount + ChosenPrimary(accounts))
            && (ActivePeriod(db).Some? ==> after.periods == db.periods)
            && (ActivePeriod(db).None? ==>
                  ActivePeriod(after).Some?
                  && after.periods[ActivePeriod(after).value].starting == Wallet(after))
  {
    hide *;
    CompletedParts(db, consent, income, plans, accounts, today);
    var start := db.(income := Some(income));
    var ready := Ready(start, plans, accounts).value;
    IncomeKeepsWf(db, income);
    SameActive(db, start);
    ReadyLedger(start, plans, accounts);
    EnsurePeriodKeepsLedger(ready, OwnBalances(ready.accounts), TotalOf(accounts, |accounts|), today);
  }

  lemma OwnBalancesAreTheWallet(db: Db)
    ensures OpeningsSum(OwnBalances(db.accounts), db.nextAccount) == Wallet(db)
  {
    SumSame(ValueIn(OwnBalances(db.accounts)), BalanceOf(db.accounts), db.nextAccount);
  }

  // From onboarding on, on every run: the wallet differs from the displayed
  // balance of the first period by what account calls have moved the openings
  // since, plus the account rows that period does not show, less the shown rows
  // that sit on no account. Without account calls the openings do not move.
  lemma GapFromOnboarding(db: Db, consent: bool, income: int, plans: map<string, int>, accounts: seq<FirstAccount>,
                          today: Date, calls: seq<(Call, Date)>)
    requires Wf(db) && Flat(db.actuals) && CompleteOnboarding(db, consent, income, plans, accounts, today).Ok?
    requires ActivePeriod(db).None?
    ensures var start := CompleteOnboarding(db, consent, income, plans, accounts, today).value;
            var after := Run(start, calls);
            var moved := OpeningsSum(OpeningsAlong(OwnBalances(start.accounts), start, calls), after.nextAccount)
                         - Wallet(start);
            && ActivePeriod(start).Some? && ActivePeriod(after) == ActivePeriod(start)
            && Wallet(after) - BalanceNow(after, ActivePeriod(after).value)
               == moved + Sum(Outside(after.actuals, ActivePeriod(after).value), after.nextActual)
                  - Sum(Unaccounted(after.actuals, ActivePeriod(after).value), after.nextActual)
            && (NoAccountCalls(calls) ==> moved == 0)
  {
    hide *;
    OnboardingOpensTheLedger(db, consent, income, plans, accounts, today);
    var start := CompleteOnboarding(db, consent, income, plans, accounts, today).value;
    var own := OwnBalances(start.accounts);
    GapAlongEveryRun(start, own, calls, ActivePeriod(start).value);
    if NoAccountCalls(calls) {
      OpeningsStay(own, start, calls);
      RunKeepsPeriods(start, own, calls);
      OwnBalancesAreTheWallet(start);
    }
  }

  lemma SamePeriods(a: Db, b: Db, d: Date)
    requires a.periods == b.periods && a.nextPeriod == b.nextPeriod && a.cycleDay == b.cycleDay
    ensures Aligned(a) <==> Aligned(b)
    ensures HasActive(a) <==> HasActive(b)
    ensures Uncovered(a, d) <==> Uncovered(b, d)
  {
    hide AlignedRow, Covers;
  }

  lemma WfPeriods(db: Db)
    requires Wf(db)
    ensures PeriodsOk(db.periods, db.nextPeriod)
  {
    hide AccountsOk, PeriodsOk, ActualsOk, PlannedRowsOk, PlannedLinksUnique, ChargeDatesUnique, SubRowsOk,
        SubLinksUnique, CategoriesOk;
  }

  lemma ReadyPeriods(db: Db, plans: map<string, int>, accounts: seq<FirstAccount>)
    requires CategoriesOk(db.categories, db.nextCategory) && Ready(db, plans, accounts).Ok?
    ensures var ready := Ready(db, plans, accounts).value;
            ready.periods == db.periods && ready.nextPeriod == db.nextPeriod && ready.cycleDay == db.cycleDay
  {
    var filled, ready := Opened(db, accounts), Ready(db, plans, accounts).value;
    assert Seeded(filled, plans, SEED_COUNT) == Ready(db, plans, accounts);
    hide *;
    OpenedKeepsTheRest(db, accounts);
    SeedingOnlyGrowsCategories(filled, plans);
    GrownCategoriesKeepTheRest(filled, ready);
  }

  // The unique indexes of the categories refuse one of the seeds.
  predicate SeedsClash(db: Db) { exists k | 0 <= k < SEED_COUNT :: ClashAt(db, k) }

  lemma SameCategoriesSameClashes(a: Db, b: Db)
    requires a.categories == b.categories && a.nextCategory == b.nextCategory
    ensures SeedsClash(a) <==> SeedsClash(b)
  {
    forall k | 0 <= k < SEED_COUNT
      ensures ClashAt(a, k) <==> ClashAt(b, k)
    {
      assert forall j | 0 <= j < SEED_COUNT :: SeedRow(a, j) == SeedRow(b, j);
      hide SeedRow, SeedName, SeedCode;
      assert forall j | 0 <= j < SEED_COUNT :: TargetName(a, j) == TargetName(b, j);
    }
    hide ClashAt;
  }

  lemma ReadyFailsExactly(db: Db, start: Db, plans: map<string, int>, accounts: seq<FirstAccount>)
    requires CategoriesOk(db.categories, db.nextCategory)
    requires start.categories == db.categories && start.nextCategory == db.nextCategory
    ensures Ready(start, plans, accounts).Err? <==> SeedsClash(db)
  {
    var filled := Opened(start, accounts);
    OpenedKeepsTheRest(start, accounts);
    hide Opened, Seeded, ClashAt, CategoriesOk;
    SeedingFailsExactly(filled, plans);
    SameCategoriesSameClashes(db, filled);
  }

  lemma ActiveExactly(db: Db)
    requires PeriodsOk(db.periods, db.nextPeriod)
    ensures ActivePeriod(db).Some? <==> HasActive(db)
  {
    if HasActive(db) {
      var p :| p in db.periods && db.periods[p].active;
      TheActiveOne(db, p);
    }
  }

  lemma EnsurePeriodFailsExactly(db: Db, starting: int, today: Date)
    requires PeriodsOk(db.periods, db.nextPeriod) && Aligned(db)
    ensures EnsurePeriod(db, starting, today).Err? <==> !HasActive(db) && !Uncovered(db, today)
  {
    FirstFailsExactly(db, starting, today);
    ActiveExactly(db);
    hide CreateFirstPeriod, PeriodsOk, Aligned, HasActive, Uncovered, ActivePeriod, CategoriesOk;
  }

  lemma CompletesExactly(db: Db, consent: bool, income: int, plans: map<string, int>, accounts: seq<FirstAccount>,
      today: Date)
    ensures var ready := Ready(db.(income := Some(income)), plans, accounts);
            CompleteOnboarding(db, consent, income, plans, accounts, today).Ok? <==>
              && RefuseOnboarding(db, consent, income, plans, accounts).None?
              && (forall i | 0 <= i < |accounts| :: InRange(accounts[i].balance))
              && ready.Ok? && EnsurePeriod(ready.value, TotalOf(accounts, |accounts|), today).Ok?
  {
    hide EnsurePeriod, Seeded, Opened, TotalOf, RefuseOnboarding, InRange;
  }

  // When onboarding goes through: the body is acceptable, no account exists,
  // the balances fit, no category clashes with a seed, and a period is active
  // already or none covers today.
  lemma OnboardingSucceedsExactly(db: Db, consent: bool, income: int, plans: map<string, int>,
                                  accounts: seq<FirstAccount>, today: Date)
    requires Wf(db) && Aligned(db)
    ensures CompleteOnboarding(db, consent, income, plans, accounts, today).Ok? <==>
            && RefuseOnboarding(db, consent, income, plans, accounts).None?
            && (forall i | 0 <= i < |accounts| :: InRange(accounts[i].balance))
            && !SeedsClash(db)
            && (HasActive(db) || Uncovered(db, today))
  {
    hide *;
    var start := db.(income := Some(income));
    WfPeriods(db);
    WfCategories(db);
    ReadyFailsExactly(db, start, plans, accounts);
    var ready := Ready(start, plans, accounts);
    if ready.Ok? {
      ReadyPeriods(start, plans, accounts);
      SamePeriods(db, ready.value, today);
      EnsurePeriodFailsExactly(ready.value, TotalOf(accounts, |accounts|), today);
    }
    CompletesExactly(db, consent, income, plans, accounts, today);
  }

  lemma EnsurePeriodKeepsCells(db: Db, starting: int, today: Date)
    requires PeriodsOk(db.periods, db.nextPeriod) && Aligned(db) && EnsurePeriod(db, starting, today).Ok?
    ensures Aligned(EnsurePeriod(db, starting, today).value)
  {
    PeriodStepKeeps(db, First(starting), today);
    hide PeriodsOk, AllAligned, CreateFirstPeriod, ActivePeriod;
  }

  lemma OnboardingKeepsCells(db: Db, consent: bool, income: int, plans: map<string, int>,
      accounts: seq<FirstAccount>, today: Date)
    requires Wf(db) && Aligned(db) && CompleteOnboarding(db, consent, income, plans, accounts, today).Ok?
    ensures Aligned(CompleteOnboarding(db, consent, income, plans, accounts, today).value)
  {
    hide *;
    var start := db.(income := Some(income));
    WfPeriods(db);
    WfCategories(db);
    CompletedParts(db, consent, income, plans, accounts, today);
    ReadyPeriods(start, plans, accounts);
    var ready := Ready(start, plans, accounts).value;
    SamePeriods(db, ready, today);
    EnsurePeriodKeepsCells(ready, TotalOf(accounts, |accounts|), today);
  }

  // From onboarding on, the periods stay a part of the partition on every run.
  lemma PartitionFromOnboarding(db: Db, consent: bool, income: int, plans: map<string, int>,
      accounts: seq<FirstAccount>, today: Date, calls: seq<(Call, Date)>)
    requires Wf(db) && Flat(db.actuals) && Aligned(db)
    requires CompleteOnboarding(db, consent, income, plans, accounts, today).Ok?
    ensures var after := Run(CompleteOnboarding(db, consent, income, plans, accounts, today).value, calls);
            Aligned(after) && Disjoint(after)
  {
    hide *;
    var start := CompleteOnboarding(db, consent, income, plans, accounts, today).value;
    OnboardingOpensTheLedger(db, consent, income, plans, accounts, today);
    OnboardingKeepsCells(db, consent, income, plans, accounts, today);
    RunKeepsPartition(start, OwnBalances(start.accounts), calls);
  }

  // A clash is a violated index, not one of the service's own refusals.
  lemma ClashRaises(db: Db, consent: bool, income: int, plans: map<string, int>, accounts: seq<FirstAccount>,
      today: Date)
    requires CategoriesOk(db.categories, db.nextCategory) && SeedsClash(db)
    requires RefuseOnboarding(db, consent, income, plans, accounts).None?
    ensures CompleteOnboarding(db, consent, income, plans, accounts, today) == Err(IntegrityError)
  {
    var start := db.(income := Some(income));
    ReadyFailsExactly(db, start, plans, accounts);
    OpenedKeepsTheRest(start, accounts);
    hide EnsurePeriod, Seeded, Opened, TotalOf, RefuseOnboarding, InRange, CategoriesOk, SeedsClash;
    SeedingFailsExactly(Opened(start, accounts), plans);
  }

  // ---- A fresh user ----

  const FRESH := Db(map[], 0, map[], 0, map[], 0, map[], 0, map[], 0, map[], map[], map[], [], 5, None)

  lemma FreshIsEmpty(today: Date)
    ensures Wf(FRESH) && Flat(FRESH.actuals) && Aligned(FRESH) && Uncovered(FRESH, today) && ActivePeriod(FRESH) == None
  {
    assert ActiveIds(FRESH.periods) == {};
  }

  // A fresh user with consent, plans within the income and acceptable accounts
  // is always onboarded.
  lemma FreshUserIsOnboarded(income: int, plans: map<string, int>, accounts: seq<FirstAccount>, today: Date)
    requires IncomeOk(income) && PlansOk(plans, income) && SeedSum(plans, |SEED_CODES|) <= income
    requires AccountsAccepted(accounts)
    requires forall i | 0 <= i < |accounts| :: InRange(accounts[i].balance)
    ensures Wf(FRESH) && Flat(FRESH.actuals) && ActivePeriod(FRESH) == None
    ensures CompleteOnboarding(FRESH, true, income, plans, accounts, today).Ok?
  {
    FreshIsEmpty(today);
    assert RefuseOnboarding(FRESH, true, income, plans, accounts).None?;
    forall k | 0 <= k < SEED_COUNT
      ensures !ClashAt(FRESH, k)
    {
      EmptyTableNeverClashes(FRESH, k);
    }
    assert !SeedsClash(FRESH);
    hide *;
    OnboardingSucceedsExactly(FRESH, true, income, plans, accounts, today);
  }
}
