// Concrete states in which a service does not do what its documentation says;
// the exact conditions are proved beside the services they belong to.
module Counterexamples {
  import opened Wrappers
  import opened Calendar
  import opened Sums
  import opened Database
  import opened Ledger
  import opened LedgerTheorems
  import opened PostingTheorems
  import opened BatchTheorems
  import opened AccountTheorems
  import opened Balances
  import opened BalanceTheorems
  import opened Plans
  import opened PlanTheorems
  import opened PeriodTheorems
  import opened Onboarding
  import opened SeedingTheorems
  import opened OnboardingTheorems
  import opened Money
  import opened MoneyTheorems

  const JANUARY := Period(YMD(2026, 1, 5), YMD(2026, 2, 4), 0, true)

  const MARCH := Period(YMD(2026, 3, 5), YMD(2026, 4, 4), 0, false)

  const DAY_IN_JANUARY: Date := YMD(2026, 1, 10)

  const DAY_IN_MARCH: Date := YMD(2026, 3, 10)

  const GROCERIES := Category("Groceries", Expense, false, Ordinary("ua"), 0)

  const SALARY := Category("Salary", Income, false, Ordinary("ub"), 0)

  const CORRECTION := Category(ADJUSTMENT_NAME, Expense, false, Adjustment, 0)

  function Bare(periods: map<nat, Period>, n: nat): Db {
    Db(map[], 0, map[0 := GROCERIES, 1 := SALARY, 2 := CORRECTION], 3, periods, n, map[], 0, map[], 0, map[], map[],
        map[], [], 5, None)
  }

  lemma NotTooFar(d: Date)
    ensures !TooFarAhead(d, d)
  {
    OrdinalOrders(AddDays(d, 7), d);
  }

  // ---- post_planned_batch ----

  function PlannedRow(kind: Kind, amount: int, category: nat): Planned {
    Planned(0, kind, amount, category, None, Manual, None, None, None)
  }

  // An income that does not fit the balance range, and an expense.
  const FULL := Bare(map[0 := JANUARY], 1).(
    accounts := map[0 := Account(BALANCE_LIMIT - 100, true)], nextAccount := 1,
    planned := map[0 := PlannedRow(Income, 200, 1), 1 := PlannedRow(Expense, 150, 0)], nextPlanned := 2)

  lemma FullIsWf()
    ensures Wf(FULL) && PrimaryAccount(FULL) == Some(0)
  {
    assert FirstPrimary(FULL.accounts, 1) == Some(0);
  }

  lemma PlainRowIsReady(db: Db, id: nat, d: Date, p: nat)
    requires Candidate(db, id) && db.planned[id].category in db.categories
    requires var c := db.categories[db.planned[id].category]; !c.archived && c.kind == db.planned[id].kind
    requires p in db.periods && Within(db.periods[p].start, d, db.periods[p].end)
    ensures ReadyLine(db, id, Some(d), d)
  {
    NotTooFar(d);
    hide TooFarAhead, Within, PrimaryAccount, SignedForStorage;
    assert LineDate(db, id, Some(d), d) == d;
  }

  lemma FullLineReady(id: nat)
    requires id < 2
    ensures ReadyLine(FULL, id, Some(DAY_IN_JANUARY), DAY_IN_JANUARY)
  {
    assert Within(FULL.periods[0].start, DAY_IN_JANUARY, FULL.periods[0].end);
    hide ReadyLine, Within;
    PlainRowIsReady(FULL, id, DAY_IN_JANUARY, 0);
  }

  // The same batch twice: the second run posts the line the first one skipped.
  lemma RepeatedBatchPostsMore()
    ensures Wf(FULL)
    ensures var first := PostBatch(FULL, [0, 1], Some(DAY_IN_JANUARY), DAY_IN_JANUARY);
            first.Ok? && first.value.1[0].None? && !Idle(first.value.0, [0, 1], Some(DAY_IN_JANUARY), DAY_IN_JANUARY)
  {
    hide PostBatch, Idle, Wf, ReadyLine, PrimaryAccount;
    FullIsWf();
    FullLineReady(0);
    FullLineReady(1);
    RepeatPostsWhatFitsLater(FULL, 0, 1, Some(DAY_IN_JANUARY), DAY_IN_JANUARY);
  }

  // ---- _resolve_period_for_date, reconcile_balance, close_period ----

  lemma StaleBlocks(db: Db, today: Date)
    requires PeriodsOk(db.periods, db.nextPeriod) && Uncovered(db, today) && HasActive(db)
    ensures ResolvePeriod(db, today, today) == (db, None)
  {
    hide NewPeriod, PeriodCovering, Covers, AlignedRow, PeriodsOk, CategoriesOk;
    CoveringFound(db, today);
    NewPeriodAligned(today, db.cycleDay, 0, today);
  }

  // A period left active after its end: no period can be found or made today.
  lemma StaleActivePeriodBlocks()
    ensures var db := Bare(map[0 := JANUARY], 1); Wf(db) && ResolvePeriod(db, DAY_IN_MARCH, DAY_IN_MARCH) == (db, None)
  {
    var db := Bare(map[0 := JANUARY], 1);
    assert !Covers(JANUARY, DAY_IN_MARCH);
    assert Wf(db) && Uncovered(db, DAY_IN_MARCH);
    assert 0 in db.periods && db.periods[0].active;
    hide Wf, Uncovered, ResolvePeriod;
    StaleBlocks(db, DAY_IN_MARCH);
  }

  // The active period is over and today's period exists: the correction goes
  // to today's period and the displayed balance stays where it was.
  const SPLIT := Bare(map[0 := JANUARY, 1 := MARCH], 2)

  lemma SplitIsWf()
    ensures Wf(SPLIT) && BalanceNow(SPLIT, 0) == 0
  {
  }

  lemma SplitQueries()
    ensures ActivePeriod(SPLIT) == Some(0) && PeriodCovering(SPLIT, DAY_IN_MARCH) == Some(1)
    ensures FirstWithCode(SPLIT.categories, Adjustment, 3) == Some(2)
  {
    assert 0 in ActiveIds(SPLIT.periods);
    assert !Within(JANUARY.start, DAY_IN_MARCH, JANUARY.end) && Within(MARCH.start, DAY_IN_MARCH, MARCH.end);
    assert 1 in CoveringIds(SPLIT.periods, DAY_IN_MARCH);
  }

  lemma FreeRowIsCreated(db: Db, tx: NewActual, today: Date)
    requires CheckNewActual(db, tx, today).None? && PeriodCovering(db, tx.date).Some? && tx.account.None?
        && tx.parent.None?
    ensures CreateActual(db, tx, today).Ok?
  {
    hide CheckNewActual, PeriodCovering;
  }

  lemma SplitCorrection()
    ensures CheckNewActual(SPLIT, NewActual(Income, 100, 2, DAY_IN_MARCH, None, None), DAY_IN_MARCH).None?
    ensures PrimaryAccount(SPLIT) == None && Abs(100) == 100
  {
    NotTooFar(DAY_IN_MARCH);
    hide TooFarAhead;
  }

  lemma ReconcileIs(db: Db, target: int, today: Date)
    requires ActivePeriod(db).Some? && Shortfall(db, target) != 0
        && FirstWithCode(db.categories, Adjustment, db.nextCategory).Some?
    requires CreateActual(db, ReconcilingTx(db, Shortfall(db, target),
                          FirstWithCode(db.categories, Adjustment, db.nextCategory).value, today), today).Ok?
    ensures Reconcile(db, target, today).Ok?
  {
    hide CreateActual, ActivePeriod, Shortfall, FirstWithCode, ReconcilingTx;
  }

  lemma CorrectionLandsElsewhere()
    ensures var r := Reconcile(SPLIT, 100, DAY_IN_MARCH);
            Wf(SPLIT) && r.Ok? && ActivePeriod(r.value.0).Some? && Shortfall(r.value.0, 100) != 0
  {
    SplitIsWf();
    SplitQueries();
    SplitCorrection();
    hide Wf, CreateActual, CheckNewActual, ActivePeriod, PeriodCovering, BalanceNow, FirstWithCode, PrimaryAccount,
        Reconcile, Abs;
    FreeRowIsCreated(SPLIT, NewActual(Income, 100, 2, DAY_IN_MARCH, None, None), DAY_IN_MARCH);
    assert ReconcilingTx(SPLIT, 100, 2, DAY_IN_MARCH) == NewActual(Income, 100, 2, DAY_IN_MARCH, None, None);
    ReconcileIs(SPLIT, 100, DAY_IN_MARCH);
    ReconcileHitsTargetExactly(SPLIT, 100, DAY_IN_MARCH);
  }

  lemma MarchStart()
    ensures NewPeriod(DAY_IN_MARCH, 5, 0, DAY_IN_MARCH).start == MARCH.start
  {
    hide AddDays, Within;
  }

  // Rolling over then collides with the period created ahead of time.
  lemma RollOverCollides()
    ensures Expired(SPLIT, DAY_IN_MARCH) && RollOver(SPLIT, 0, DAY_IN_MARCH) == Err(IntegrityError)
  {
    SplitIsWf();
    SplitQueries();
    MarchStart();
    hide Wf, ActivePeriod, NewPeriod, PeriodCovering, BalanceNow, FirstWithCode;
    assert 1 in Closed(SPLIT, 0).periods && Closed(SPLIT, 0).periods[1] == MARCH;
  }

  // ---- apply_template_to_period ----

  // A template of lines without a limit is copied again on every call.
  lemma LinesAreCopiedTwice()
    ensures var db := Bare(map[0 := JANUARY], 1).(templateLines := [TemplateLine(0, 500, Some(3), Expense)]);
            var (once, _) := ApplyTemplate(db, 0).value;
            var twice := ApplyTemplate(once, 0);
            twice.Ok? && (twice.value.0.planned != once.planned || twice.value.0.nextPlanned != once.nextPlanned
                || twice.value.1 != 0)
  {
    var db := Bare(map[0 := JANUARY], 1).(templateLines := [TemplateLine(0, 500, Some(3), Expense)]);
    assert !HasLimits(db, 0);
    hide HasLimits, ApplyTemplate;
    ApplyTwiceIsOnceExactly(db, 0);
  }

  // ---- delete_actual_v10 ----

  function Row(amount: int, parent: Option<nat>): Actual {
    Actual(0, Expense, amount, 0, DAY_IN_JANUARY, Some(0), parent)
  }

  // A child of a child goes with the cascade, but its amount is not given back.
  const NESTED := Bare(map[0 := JANUARY], 1).(
    accounts := map[0 := Account(-115, true)], nextAccount := 1,
    actuals := map[0 := Row(100, None), 1 := Row(10, Some(0)), 2 := Row(5, Some(1))], nextActual := 3)

  lemma NestedIsWf()
    ensures Wf(NESTED) && !Flat(NESTED.actuals)
  {
    assert NESTED.actuals[2].parent == Some(1) && NESTED.actuals[1].parent.Some?;
    assert CategoriesOk(NESTED.categories, NESTED.nextCategory);
    hide CategoriesOk, LiveClash;
  }

  lemma NestedRows()
    ensures Cascade(NESTED.actuals, 0) == {0, 1, 2} && Restored(NESTED.actuals, 0) == {0, 1}
  {
    assert Descends(NESTED.actuals, 1, 0) && Descends(NESTED.actuals, 2, 0);
  }

  lemma NestedAmounts()
    ensures Contribution(NESTED, {0, 1}, 0) == -110 && Contribution(NESTED, {2}, 0) == -5
  {
    var w := Only({0, 1}, Share(NESTED.actuals, 0));
    assert w(0) == -100 && w(1) == -10 && w(2) == 0;
    assert Sum(w, 3) == Sum(w, 2) + w(2) && Sum(w, 2) == Sum(w, 1) + w(1) && Sum(w, 1) == Sum(w, 0) + w(0);
    SingleContribution(NESTED, 2, 0);
  }

  lemma GrandchildDrifts()
    ensures Wf(NESTED) && Ledger.DeleteActual(NESTED, 0).Ok?
        && !KeepsOpenings(NESTED, Ledger.DeleteActual(NESTED, 0).value)
  {
    NestedIsWf();
    NestedRows();
    NestedAmounts();
    hide Wf, Cascade, Restored, Contribution, Flat, KeepsOpenings, EraseActuals;
    assert Ledger.DeleteActual(NESTED, 0).Ok?;
    assert {0, 1, 2} - {0, 1} == {2};
    hide Ledger.DeleteActual;
    DeleteKeepsOpeningsExactly(NESTED, 0);
  }

  // ---- update_account ----

  // The only account may be demoted, and the next account is not promoted.
  lemma PrimaryIsLost(balance: int)
    requires InRange(balance)
    ensures var db := Bare(map[], 0).(accounts := map[0 := Account(0, true)], nextAccount := 1);
            var demoted := UpdateAccount(db, 0, Some(false), None);
            && HasPrimary(db.accounts) && demoted.Ok? && CreateAccount(demoted.value, balance, false).Ok?
            && !HasPrimary(CreateAccount(demoted.value, balance, false).value.0.accounts)
  {
    var db := Bare(map[], 0).(accounts := map[0 := Account(0, true)], nextAccount := 1);
    assert 0 in db.accounts && db.accounts[0].primary;
    UpdateKeepsPrimaryExactly(db, 0, Some(false), None);
    LostPrimaryStaysLost(UpdateAccount(db, 0, Some(false), None).value, balance);
  }

  // ---- create_actual_v10 ----

  const ONE_MONTH := Bare(map[0 := JANUARY], 1)

  function OnAccount(account: nat): NewActual { NewActual(Expense, 100, 0, DAY_IN_JANUARY, Some(account), None) }

  lemma OnAccountPasses(account: nat)
    ensures CheckNewActual(ONE_MONTH, OnAccount(account), DAY_IN_JANUARY).None? && account !in ONE_MONTH.accounts
    ensures OnAccount(account).account == Some(account)
  {
    NotTooFar(DAY_IN_JANUARY);
    hide TooFarAhead;
  }

  // A missing account is no AccountNotFoundError but a violated foreign key.
  lemma MissingAccountRaises(account: nat)
    ensures CreateActual(ONE_MONTH, OnAccount(account), DAY_IN_JANUARY) == Err(IntegrityError)
  {
    hide *;
    OnAccountPasses(account);
    MissingAccountIsIntegrity(ONE_MONTH, OnAccount(account), DAY_IN_JANUARY);
  }

  // ---- complete_onboarding ----

  const CAFE: nat := 1

  predicate IsSeedRow(row: Category, k: nat)
    requires k < SEED_COUNT
  {
    !row.archived && row.code == SeedCode(k) && row.name == SeedName(k)
  }

  predicate IsSomeSeed(row: Category) { exists k | 0 <= k < SEED_COUNT :: IsSeedRow(row, k) }

  predicate HasSeed(m: map<nat, Category>, k: nat)
    requires k < SEED_COUNT
  {
    exists c | c in m :: IsSeedRow(m[c], k)
  }

  // The default categories and no other.
  predicate OnlySeeds(m: map<nat, Category>) {
    (forall c | c in m :: IsSomeSeed(m[c])) && HasSeed(m, CAFE)
  }

  lemma FirstSeeding(db: Db, after: Db, plans: map<string, int>)
    requires db.categories == map[] && SeededTo(db, after, plans, SEED_COUNT)
    ensures OnlySeeds(after.categories)
  {
    hide SeedCode, SeedName, SeedPlan;
    assert forall k | 0 <= k < SEED_COUNT :: SeedRow(db, k).None?;
    assert SeedIsLive(after.categories, db, plans, CAFE);
    forall c | c in after.categories
      ensures IsSomeSeed(after.categories[c])
    {
      assert IsNewSeed(after.categories[c], db, plans, SEED_COUNT);
      var k :| 0 <= k < SEED_COUNT && LiveAs(after.categories[c], db, plans, k);
      assert IsSeedRow(after.categories[c], k);
    }
  }

  // The seeded "КАФЕ" is archived and a category of that name created.
  function Shelved(db: Db, cafe: nat, slug: string): Db
    requires cafe in db.categories
  {
    var shelved := db.categories[cafe := db.categories[cafe].(archived := true)];
    db.(categories := shelved[db.nextCategory := Category(SeedName(CAFE), Expense, false, Ordinary(slug), 0)],
        nextCategory := db.nextCategory + 1)
  }

  lemma SameCodeSameSeed(row: Category, k: nat)
    requires k < SEED_COUNT && IsSomeSeed(row) && (row.code == SeedCode(k) || row.name == SeedName(k))
    ensures IsSeedRow(row, k)
  {
    var j :| 0 <= j < SEED_COUNT && IsSeedRow(row, j);
    if j < k {
      SeedCodesDiffer(j, k);
      SeedNamesDiffer(j, k);
    } else if k < j {
      SeedCodesDiffer(k, j);
      SeedNamesDiffer(k, j);
    }
    hide SeedCode, SeedName;
  }

  predicate FreeSlug(slug: string) { forall k | 0 <= k < SEED_COUNT :: SeedCode(k) != Ordinary(slug) }

  lemma ShelvedIsUnique(db: Db, cafe: nat, slug: string)
    requires CategoriesOk(db.categories, db.nextCategory) && OnlySeeds(db.categories) && FreeSlug(slug)
    requires cafe in db.categories && IsSeedRow(db.categories[cafe], CAFE)
    ensures var after := Shelved(db, cafe, slug); CategoriesOk(after.categories, after.nextCategory)
  {
    var shelved := db.categories[cafe := db.categories[cafe].(archived := true)];
    var row := Category(SeedName(CAFE), Expense, false, Ordinary(slug), 0);
    hide SeedCode, SeedName;
    assert CategoriesOk(shelved, db.nextCategory);
    assert !LiveClash(db.categories, cafe, db.categories[cafe]);
    forall c | c in shelved && !shelved[c].archived
      ensures shelved[c].name != row.name && shelved[c].code != row.code
    {
      assert IsSomeSeed(db.categories[c]);
    }
    assert !LiveClash(shelved, db.nextCategory, row);
    hide LiveClash, CategoriesOk;
    WriteKeepsUnique(shelved, db.nextCategory, db.nextCategory, row, db.nextCategory + 1);
  }

  lemma ShelvedClashes(db: Db, cafe: nat, slug: string)
    requires CategoriesOk(db.categories, db.nextCategory) && OnlySeeds(db.categories) && FreeSlug(slug)
    requires cafe in db.categories && IsSeedRow(db.categories[cafe], CAFE)
    ensures SeedsClash(Shelved(db, cafe, slug))
  {
    var after := Shelved(db, cafe, slug);
    var found := SeedRow(after, CAFE);
    assert after.categories[cafe].code == SeedCode(CAFE);
    assert found.Some? && after.categories[found.value].code == SeedCode(CAFE);
    assert !LiveClash(db.categories, cafe, db.categories[cafe]);
    assert IsSomeSeed(db.categories[cafe]);
    hide SeedCode, SeedName, SeedRow;
    assert found == Some(cafe);
    assert TargetName(after, CAFE) == SeedName(CAFE);
    hide TargetName, ClashAt;
    TakenNameClashes(after, CAFE, db.nextCategory);
  }

  lemma FirstPeriodKeepsTheRest(db: Db, starting: int, today: Date)
    requires EnsurePeriod(db, starting, today).Ok?
    ensures var after := EnsurePeriod(db, starting, today).value;
            && after.accounts == db.accounts && after.actuals == db.actuals && after.subs == db.subs
            && after.categories == db.categories && after.nextCategory == db.nextCategory
  {
    hide NewPeriod, ActivePeriod, PeriodClashes;
  }

  lemma OpenedAlone(db: Db, account: FirstAccount)
    requires db.accounts == map[] && db.nextAccount == 0
    ensures Opened(db, [account]).accounts == map[0 := Account(account.balance, true)]
  {
    assert ChosenPrimary([]) == 0 && ChosenPrimary([account]) == 0;
    assert WithAccounts(map[], 0, [account], 0, 0) == map[];
  }

  lemma FirstOnboarding(income: int, plans: map<string, int>, account: FirstAccount, today: Date)
    requires IncomeOk(income) && PlansOk(plans, income) && SeedSum(plans, |SEED_CODES|) <= income
    requires AccountsAccepted([account]) && InRange(account.balance)
    ensures var first := CompleteOnboarding(FRESH, true, income, plans, [account], today);
            && first.Ok? && first.value.accounts == map[0 := Account(account.balance, true)]
            && first.value.actuals == map[] && first.value.subs == map[]
            && OnlySeeds(first.value.categories)
            && CategoriesOk(first.value.categories, first.value.nextCategory)
  {
    FreshUserIsOnboarded(income, plans, [account], today);
    CompletedParts(FRESH, true, income, plans, [account], today);
    var start := FRESH.(income := Some(income));
    var filled, ready := Opened(start, [account]), Ready(start, plans, [account]);
    assert filled.categories == map[] && filled.actuals == map[] && filled.subs == map[];
    assert CategoriesOk(filled.categories, filled.nextCategory) && ready == Seeded(filled, plans, SEED_COUNT);
    OpenedAlone(start, account);
    SeedingIsComplete(filled, plans);
    assert NothingElse(filled, ready.value);
    assert ready.value.accounts == filled.accounts && ready.value.actuals == map[] && ready.value.subs == map[];
    hide *;
    FirstSeeding(filled, ready.value, plans);
    FirstPeriodKeepsTheRest(ready.value, TotalOf([account], 1), today);
  }

  lemma TheCafeRow(db: Db)
    requires OnlySeeds(db.categories) && CategoriesOk(db.categories, db.nextCategory)
    ensures SeedRow(db, CAFE).Some? && IsSeedRow(db.categories[SeedRow(db, CAFE).value], CAFE)
  {
    var c :| c in db.categories && IsSeedRow(db.categories[c], CAFE);
    var found := SeedRow(db, CAFE);
    assert found.Some? && db.categories[found.value].code == SeedCode(CAFE);
    assert IsSomeSeed(db.categories[found.value]);
    hide SeedCode, SeedName, SeedRow, LiveClash;
    SameCodeSameSeed(db.categories[found.value], CAFE);
  }

  lemma UnusedAccountMayGo(db: Db, account: Account)
    requires db.accounts == map[0 := account] && db.actuals == map[] && db.subs == map[]
    ensures DeleteAccount(db, 0) == Ok(db.(accounts := map[]))
  {
    assert db.accounts - {0} == map[];
  }

  // Onboarding is not repeatable after every reset: once the seeded "КАФЕ" is
  // archived, a category of that name created and the unused account closed,
  // the same body violates the index on live names.
  lemma ReonboardingRaises(income: int, plans: map<string, int>, account: FirstAccount, slug: string, today: Date)
    requires IncomeOk(income) && PlansOk(plans, income) && SeedSum(plans, |SEED_CODES|) <= income
    requires AccountsAccepted([account]) && InRange(account.balance) && FreeSlug(slug)
    ensures var first := CompleteOnboarding(FRESH, true, income, plans, [account], today);
            && first.Ok? && SeedRow(first.value, CAFE).Some?
            && var closed := DeleteAccount(Shelved(first.value, SeedRow(first.value, CAFE).value, slug), 0);
            && closed.Ok?
            && CompleteOnboarding(closed.value, true, income, plans, [account], today) == Err(IntegrityError)
  {
    FirstOnboarding(income, plans, account, today);
    var first := CompleteOnboarding(FRESH, true, income, plans, [account], today).value;
    TheCafeRow(first);
    var cafe := SeedRow(first, CAFE).value;
    var shelved := Shelved(first, cafe, slug);
    assert shelved.accounts == first.accounts && shelved.actuals == map[] && shelved.subs == map[];
    var closed := shelved.(accounts := map[]);
    assert RefuseOnboarding(closed, true, income, plans, [account]).None?;
    hide *;
    UnusedAccountMayGo(shelved, Account(account.balance, true));
    ShelvedIsUnique(first, cafe, slug);
    ShelvedClashes(first, cafe, slug);
    SameCategoriesSameClashes(shelved, closed);
    ClashRaises(closed, true, income, plans, [account], today);
  }

  // ---- parse_amount ----

  // A one and n zeros.
  function Huge(n: nat): string { if n == 0 then "1" else Huge(n - 1) + "0" }

  lemma OneDigitMore(s: string)
    requires AllDigits(s)
    ensures AllDigits(s + "0") && Value(s + "0") == 10 * Value(s)
  {
    assert (s + "0")[..|s|] == s;
    assert IsDigit('0') && DigitValue('0') == 0;
    hide IsDigit, DigitValue;
  }

  lemma {:induction false} HugeDigits(n: nat)
    ensures |Huge(n)| == n + 1 && AllDigits(Huge(n)) && Value(Huge(n)) == Pow10(n)
  {
    if n == 0 {
      assert "1"[..0] == "" && IsDigit('1') && DigitValue('1') == 1;
      hide IsDigit, DigitValue;
    } else {
      hide AllDigits, Value;
      HugeDigits(n - 1);
      OneDigitMore(Huge(n - 1));
    }
  }

  lemma NumberIsItsCore(s: string)
    requires AllDigits(s) && |s| > 0
    ensures Core(s) == s
  {
    DigitsAreApart(s[0]);
    DigitsAreApart(s[|s| - 1]);
    hide IsDigit, IsSpace;
    assert LStrip(s) == s && RStrip(s) == s;
    NumbersHaveNoSuffix(s);
    DigitsStayClean(s);
  }

  // From 10^26 rubles on the parser raises instead of refusing.
  lemma HugeAmountRaises(n: nat)
    requires n >= PRECISION - 2
    ensures Parse(Huge(n)) == InvalidOperation
  {
    var s := Huge(n);
    hide *;
    HugeDigits(n);
    NumberIsItsCore(s);
    WholeReads(s);
    SmallPowers();
    PowersMultiply(n, 2);
    PowersGrow(PRECISION, n + 2);
    ParsesExactly(s);
  }

  // The documented form "1 500,50 руб." is refused for its full stop.
  lemma DocumentedFormIsRejected()
    ensures Parse("1 500,50 руб.") == Rejected
  {
    hide *;
    FullStopIsRejected("1 500,50 руб");
    assert "1 500,50 руб" + "." == "1 500,50 руб.";
  }
}
