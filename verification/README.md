# A verified model of the budget planner's money kernel

The application keeps one user's money in two places at once. `account.balance_cents` is a cache that services move by
deltas; `actual_transaction` holds the rows those deltas came from. Planned rows, recurring payments, budget periods,
limits and a plan template surround them. This project models that state and the services that change it, and proves
that the two places agree on every run, that posting can be undone, that periods partition the calendar, that payments
are safe under concurrency, and what exactly goes wrong where a promise does not hold. Four smaller parts stand beside
the ledger: the cash-flow projection, the Swift type generator, the amount parser and printer, and the embedding cache.

The state is one `Db` record holding the rows of a single user. `Wf` is the part of the schema the services rely on
(keys, partial unique indexes, foreign keys, range checks). A service call is a function from a database to a database
or to an exception; `Commit` keeps the result or the old state, and `Run` strings calls together. `Service.Session` is
the same thing as it runs: a session object whose methods change the tables row by row, with the loops, early returns
and savepoints of the code. Each method is proved against its function, and the theorems are about the functions, so
they hold for the session. Two state machines model concurrency, where interleaving is the point.

| files | contents |
|---|---|
| `Wrappers`, `Sums`, `Calendar` | results, finite sums and GROUP BY, dates as day numbers |
| `PeriodEngine`, `Recurrence` | `period_for`, `_advance_date` |
| `Database`, `Ledger`, `Balances`, `Plans`, `Onboarding`, `Reports` | rows, schema, and what each call does to them |
| `LedgerTheorems`, `PostingTheorems`, `EffectTheorems`, `BatchTheorems`, `BalanceTheorems`, `WalletTheorems`, `PlanTheorems`, `RecurringTheorems`, `AccountTheorems`, `PeriodTheorems`, `SeedingTheorems`, `OnboardingTheorems`, `ReportTheorems` | what every call keeps, undoes and establishes |
| `RunTheorems`, `FrameTheorems` | whole runs |
| `Service` | the session class |
| `PostingProtocol`, `ProtocolTheorems`, `SerialTheorems`, `PeriodRace` | interleaved transactions |
| `Cashflow`, `SwiftGen`, `Money`, `MoneyTheorems`, `EmbedCache` | the smaller parts |
| `Counterexamples` | concrete states behind the exact conditions |

## Where the code and its documentation part

The model follows the code.

- `post_planned_batch` is documented to skip what is already posted. The savepoint also turns a balance out of range, or
  a period that cannot be resolved, into "already posted"; such a line may be posted by a repetition
  (`Counterexamples.RepeatedBatchPostsMore`).
- `_resolve_period_for_date` is annotated to return an id. It returns nothing when a period that is over is still active
  and the new period would contain today; the insert that follows then violates NOT NULL
  (`Counterexamples.StaleActivePeriodBlocks`).
- `apply_template_to_period` is documented as idempotent. It decides by the limits of the period, so a template with
  lines but no limits is copied again on every call (`Counterexamples.LinesAreCopiedTwice`).
- `create_actual_v10` documents `AccountNotFoundError` for a missing account. The foreign key of the inserted row is
  violated first, so `IntegrityError` is raised (`Counterexamples.MissingAccountRaises`).
- Seeding is documented as idempotent on the code of a category. The index on the names of unarchived categories can
  refuse a repetition: a default category that was archived is unarchived beside a new one of its name
  (`Counterexamples.ReonboardingRaises`).
- `update_account` says that demoting the only account is repaired by the next create. It is not: only the very first
  account is promoted without being asked (`Counterexamples.PrimaryIsLost`).
- `close_period` closes the expired period before it inserts the next one to satisfy one unique index; the other one is
  violated when a transaction dated up to seven days ahead has already created that period
  (`Counterexamples.RollOverCollides`).
- `delete_actual_v10` says it restores parent and child. Deeper descendants would be deleted by the database without
  being restored (`Counterexamples.GrandchildDrifts`); no service creates them.
- `parse_amount` says it returns nothing for amounts above the cap. From 10^26 rubles on the decimal arithmetic raises
  (`Counterexamples.HugeAmountRaises`). "1 500,50 руб." with its full stop, if that is part of the documented form, is
  refused (`Counterexamples.DocumentedFormIsRejected`).
- `post_subscription` says that the earliest unposted occurrence is taken. The rows are read in date order and locked
  one by one afterwards; one that is postponed in between is paid in its old place (`SerialTheorems.OvertakenPosting`).
- The generator says pre-skipping keeps the generated code compilable. A schema dropped while being rendered, or absent
  from the document, can still be named by a struct (`SwiftGen.LateDropDangles`, `SwiftGen.AbsentRefDangles`).

## Model

| member | source | states |
|---|---|---|
| `Calendar.OrdinalRoundTrip` | app/core/period.py:57-71 | dates and day numbers are in bijection, so `timedelta` and day-number arithmetic agree |
| `Calendar.OrdinalOrders` | app/core/period.py:50-57 | dates compare as (year, month, day) exactly as their day numbers do |
| `Calendar.AddDays` | app/core/period.py:68-71 | `d + timedelta(days=k)` moves the day number by k |
| `Calendar.AddMonths` | app/core/period.py:57-68 | dateutil's month addition moves the month by k and clamps the day to the new month's length |
| `PeriodEngine.PeriodForIsPeriodAt` | app/core/period.py:31-73 | `period_for` returns the cell of d in one fixed row of cells numbered by month; a cycle day below 1 is refused |
| `PeriodEngine.PeriodIndexIsTheOnly` | app/core/period.py:31-73 | a date lies in exactly one cell of that row |
| `PeriodEngine.PeriodForPartitions` | app/core/period.py:31-73 | for every cycle day >= 1: e is in the period of d if and only if both have the same period; d is in its own |
| `PeriodEngine.PeriodsAbut` | app/core/period.py:68-71 | the day after a period ends is the first day of the next one |
| `PeriodEngine.PeriodStartsMonotone` | app/core/period.py:31-73 | a later date never has an earlier period start |
| `PeriodEngine.PeriodLength` | app/core/period.py:31-73 | every period has 28 to 31 days |
| `Recurrence.AdvanceDate` | app/services/subscriptions.py:63-78 | one advance moves the month by the interval and the day to the fixed day clamped to 1..28, else to the old day clamped to the month |
| `Recurrence.ChargesAscend` | app/services/subscriptions.py:63-92 | successive charge dates strictly increase |
| `Recurrence.AdvanceShiftsPeriod` | app/services/subscriptions.py:63-78 | one advance moves the charge by exactly `interval` periods if and only if fixing the day does not carry it across the cycle day |
| `Recurrence.ChargeFallsInPeriod` | app/services/subscriptions.py:63-92 | charge n falls in a period if and only if that is n*interval periods after the first charge's one |
| `Recurrence.MonthlyChargeOncePerPeriod` | app/services/subscriptions.py:63-92 | a monthly payment has exactly one charge in every period from the first on |
| `Recurrence.AdvancesCompose` | app/services/subscriptions.py:63-78 | with a fixed day, n advances of i months equal one advance of n*i months |
| `Recurrence.FreeAdvancesCompose` | app/services/subscriptions.py:63-78 | without a fixed day that holds if and only if no month on the way is too short for the day |
| `Recurrence.FreeAdvancesNeedNotCompose` | app/services/subscriptions.py:63-78 | a concrete cursor for which it fails |
| `Database.LatestOf` | app/services/periods.py:26-46 | the selected row with the latest start, or none when nothing is selected |
| `Database.FirstPrimary` | app/services/accounts.py:408-421 | an account flagged primary, none exactly when no account is |
| `Ledger.EarliestOf` | app/services/subscriptions.py:482-500 | the selected planned row no other one comes before, with missing dates last |
| `Ledger.DueOccurrence` | app/services/subscriptions.py:501-510 | the occurrence to pay is an unposted one of the subscription in the active period |
| `LedgerTheorems.CreateActualEffect` | app/services/actual.py:788-883 | a successful create adds one row under the next id, moves its account by the signed amount, perhaps adds a period, changes nothing else, and keeps the schema |
| `LedgerTheorems.UpdateActualSound` | app/services/actual.py:348-427 | a patch keeps the schema and every account's balance less the fold over its rows |
| `EffectTheorems.UpdateActualEffect` | app/services/actual.py:348-427 | a patch changes the given fields of one row only, moves its account by the change of the signed amount, and moves the row to the period covering its new date only when the date changed |
| `EffectTheorems.PayEffect` | app/services/subscriptions.py:675-760 | paying adds one row of the given or planned size, category and date, takes it from the subscription's account else the primary one, and links exactly this occurrence and its subscription |
| `EffectTheorems.PostSubscriptionPaysTheEarliest` | app/services/subscriptions.py:477-510 | with occurrences in the active period, no unposted one comes before the one paid, and when none is left the call is refused |
| `LedgerTheorems.FlatCascade` | app/services/actual.py:916-927 | with parent links at most one deep, the database cascade removes exactly the row and its direct children |
| `LedgerTheorems.DeleteShiftsOpening` | app/services/actual.py:886-958 | a delete moves the unexplained part of a balance by what rows below the children had contributed |
| `LedgerTheorems.DeleteKeepsOpeningsExactly` | app/services/actual.py:886-958 | a delete keeps the ledger exact if and only if those rows had nothing to give back |
| `LedgerTheorems.DeleteActualSound` | app/services/actual.py:886-958 | with flat links a delete keeps the schema, flatness and every opening balance, cascaded children included |
| `PostingTheorems.PostPlannedSound` | app/services/planned.py:494-569 | posting a planned row keeps the schema (each link live and unique) and every opening balance |
| `PostingTheorems.UnpostPlannedSound` | app/services/planned.py:572-587 | so does unposting it |
| `PostingTheorems.PayOccurrenceSound` | app/services/subscriptions.py:675-760 | so does paying an occurrence, with or without another amount |
| `PostingTheorems.PostSubscriptionSound` | app/services/subscriptions.py:402-553 | so does posting a subscription by either path |
| `PostingTheorems.UnpostSubscriptionSound` | app/services/subscriptions.py:556-594 | so does unposting it |
| `PostingTheorems.SkipSound` | app/services/subscriptions.py:764-782 | so does skipping an occurrence |
| `PostingTheorems.PostponeSound` | app/services/subscriptions.py:796-824 | so does postponing one |
| `PostingTheorems.DeleteUndoesCreate` | app/services/actual.py:886-958 | deleting the row just created restores every balance and all other rows |
| `PostingTheorems.UnpostUndoesPost` | app/services/planned.py:494-587 | posting then unposting a planned row restores all balances, rows and links, although a negative amount was stored |
| `PostingTheorems.UnpostUndoesPay` | app/services/subscriptions.py:675-760 | unposting after paying an occurrence restores all balances, rows and posted flags |
| `PostingTheorems.UnpostUndoesDirectPost` | app/services/subscriptions.py:512-594 | unposting undoes the direct posting without an occurrence |
| `PostingTheorems.UnpostUndoesPostSubscription` | app/services/subscriptions.py:402-594 | unposting a subscription undoes posting it, whichever path it took |
| `BatchTheorems.PostPlannedEffect` | app/services/planned.py:494-569 | posting moves the primary account by the row's signed amount and changes one planned row and one new actual row |
| `BatchTheorems.CreateRaisesIntegrityExactly` | app/services/actual.py:788-883 | a transaction that passes the service's checks raises a database violation if and only if no period can be resolved, the account or the parent row does not exist, or the balance would leave its range; else it is recorded |
| `BatchTheorems.MissingAccountIsIntegrity` | app/services/actual.py:788-883 | in no state is the documented AccountNotFoundError raised; a missing account violates the foreign key |
| `BatchTheorems.BatchPostsExactly` | app/services/planned.py:590-638 | each position is posted or skipped, each posted one has its own new transaction, the primary account moved by exactly the posted rows, all else is untouched |
| `BatchTheorems.BatchSound` | app/services/planned.py:590-638 | a batch keeps the schema and every opening balance |
| `BatchTheorems.BatchVets` | app/services/planned.py:590-638 | a batch that returns has passed the create checks for every candidate it met |
| `BatchTheorems.IdleExactly` | app/services/planned.py:590-638 | a batch posts nothing if and only if each single line is refused in the state it starts from |
| `BatchTheorems.RefusedExactly` | app/services/planned.py:494-569 | a checked candidate is refused if and only if its period cannot be resolved or the primary balance would leave its range |
| `BatchTheorems.RepeatIdleExactly` | app/services/planned.py:590-638 | repeating a batch posts nothing if and only if every line it left unposted is still blocked in that way |
| `BatchTheorems.RepeatPostsWhatFitsLater` | app/services/planned.py:590-638 | the family of batches whose repetition posts a line the first run skipped |
| `BalanceTheorems.ReconcileHitsTargetExactly` | app/services/actual.py:964-1030 | the displayed balance hits the target if and only if it was there already or the active period is the one covering today |
| `BalanceTheorems.ReconcileMovesPrimaryAlike` | app/services/actual.py:964-1030 | the primary account moves by exactly the same difference |
| `BalanceTheorems.ReconcileTwiceIsOnce` | app/services/actual.py:964-1030 | reconciling to the same target again is a no-op |
| `BalanceTheorems.DeleteUndoesReconcile` | app/services/actual.py:886-1030 | deleting the returned row restores balances, rows and links |
| `BalanceTheorems.ReconcileSound` | app/services/actual.py:964-1030 | reconciling keeps the schema and every opening balance |
| `WalletTheorems.FoldsAddUp` | app/services/actual.py:97-122 | the folds of all accounts together are one fold over the rows that sit on an account |
| `WalletTheorems.GapExplained` | app/services/actual.py:695-700 | wallet less displayed balance, explained row by row: rows the period does not show, less shown rows on no account |
| `WalletTheorems.RepairClosesTheGap` | alembic/versions/0038_recompute_account_balances.py:69-121 | after the repair the wallet equals the displayed balance (or its fallbacks), only the primary balance changed, and repairing again changes nothing |
| `AccountTheorems.CreateAccountOpens` | app/services/accounts.py:154-211 | a new account opens with its own balance, the others keep theirs |
| `AccountTheorems.UpdateAccountShifts` | app/services/accounts.py:214-273 | editing an account moves its opening balance by the edit and no other |
| `AccountTheorems.DeleteAccountCloses` | app/services/accounts.py:289-355 | closing removes only that account; no row is left pointing at it |
| `AccountTheorems.CreateKeepsPrimary` | app/services/accounts.py:154-211 | a user with accounts keeps a primary one when an account is added |
| `AccountTheorems.DeleteKeepsPrimary` | app/services/accounts.py:289-355 | and when one is closed |
| `AccountTheorems.UpdateKeepsPrimaryExactly` | app/services/accounts.py:239-258 | an edit keeps a primary account if and only if it does not demote it |
| `AccountTheorems.LostPrimaryStaysLost` | app/services/accounts.py:154-211 | an account created without the flag does not become primary after that |
| `PlanTheorems.PlanMonthSetsLimits` | app/services/plan_month.py:82-207 | each submitted expense category resolves to its last submitted value in the active period, income categories and limit rows' existence are untouched |
| `PlanTheorems.PlanMonthSucceedsExactly` | app/services/plan_month.py:126-163 | the update succeeds if and only if all categories exist, income ones come with 0, and the expense sum fits the income |
| `PlanTheorems.PlanMonthSound` | app/services/plan_month.py:82-207 | the update keeps the schema and every opening balance |
| `PlanTheorems.TemplateDateInPeriod` | app/services/planned.py:149-164 | a template day of at least 1 becomes a date inside the period |
| `PlanTheorems.TemplateLineRow` | app/services/planned.py:446-474 | each template line becomes one new manual row with that date |
| `PlanTheorems.TemplateKeepsRows` | app/services/planned.py:359-488 | existing planned rows stay as they are |
| `PlanTheorems.ApplyTwiceIsOnceExactly` | app/services/planned.py:359-488 | applying the template again adds nothing if and only if a limit existed, or the template has a limit, or it has no lines |
| `PlanTheorems.ApplyTemplateSound` | app/services/planned.py:359-488 | applying the template keeps the schema and every opening balance |
| `RecurringTheorems.AddToPeriodSound` | app/services/subscriptions.py:236-280 | materialising keeps the schema, the charge dates unique per subscription, and every opening balance |
| `RecurringTheorems.AddToPeriodKeepsCursorAhead` | app/services/subscriptions.py:236-280 | materialising with advance keeps every cursor strictly after the charge dates it has materialised |
| `RecurringTheorems.CursorAheadIsFree` | app/services/subscriptions.py:236-280 | a cursor that is ahead never meets a conflict |
| `RecurringTheorems.TakenDateFreezesCursor` | app/services/subscriptions.py:236-346 | a conflict changes nothing, the cursor included; charging then reports the date as already charged |
| `RecurringTheorems.WithoutAdvanceTheDateIsTaken` | app/services/subscriptions.py:244-280 | materialising without advance leaves the cursor on a taken date, so it conflicts from then on |
| `RecurringTheorems.MaterialiseSound` | app/services/subscriptions.py:236-280 | the call its callers make keeps the schema and every opening balance |
| `RecurringTheorems.ChargeKeepsCursorAhead` | app/services/subscriptions.py:283-346 | charging keeps every cursor ahead |
| `RecurringTheorems.ChargeSubscriptionSound` | app/services/subscriptions.py:283-346 | charging keeps the schema and every opening balance |
| `RunTheorems.CallLedgered` | app/services/actual.py:788-958 | any single call, committed or rolled back, keeps the schema, flat links, and balance = opening + fold of its live rows |
| `RunTheorems.RunKeepsLedger` | app/services/actual.py:97-122 | on every run of all these calls, whichever of them fail, every cached balance equals its opening balance plus the signed sum of its live rows, and all links are live and unique |
| `FrameTheorems.RunKeepsCursorAhead` | app/services/subscriptions.py:236-346 | on every run, with charges and materialisations among the calls, each cursor stays ahead, charge dates stay unique, and no charge conflicts |
| `FrameTheorems.RunKeepsPeriods` | app/services/actual.py:174-244 | on every run existing periods stay as they are, and opening balances on every run without account calls |
| `FrameTheorems.RunKeepsPartition` | app/services/actual.py:174-244 | on every run of service calls each period stays the cell of its dates and no date lies in two periods |
| `FrameTheorems.GapAlongEveryRun` | app/services/actual.py:695-700 | on every run, account calls included, the wallet differs from the displayed balance by the openings along the run less what the period started from, and by exactly the rows named above |
| `PeriodTheorems.ResolveContains` | app/services/actual.py:174-244 | the period returned contains the date |
| `PeriodTheorems.ResolveFailsExactly` | app/services/actual.py:231-244 | nothing is returned if and only if no period covers the date, its own period would contain today, and a period is active already |
| `PeriodTheorems.ResolveSucceedsWhileCurrent` | app/services/actual.py:174-244 | while the active period contains today, a period is always returned |
| `PeriodTheorems.FirstFailsExactly` | app/services/periods.py:66-100 | creating the first period collides if and only if a period is active or covers today |
| `PeriodTheorems.PeriodRunKeepsPartition` | app/services/actual.py:174-244 | on every run of look-ups and creations no date lies in two periods and at most one is active |
| `PeriodTheorems.RollOverFailsExactly` | app/worker/jobs/close_period.py:191-219 | rolling an expired period over fails if and only if some period already covers today |
| `PeriodTheorems.RollOverKeepsPartition` | app/worker/jobs/close_period.py:191-219 | a rollover that goes through leaves disjoint cells, the new one active and covering today |
| `PeriodRace.ClashMeansCovered` | app/services/actual.py:231-244 | a clash with a committed row means that row covers the wanted date |
| `PeriodRace.RacesAreHarmless` | app/services/actual.py:195-244 | on every schedule of racing transactions: committed periods are disjoint, at most one is active, and winner and loser alike return a committed period containing their date |
| `PeriodRace.WaitsForACommitter` | app/services/actual.py:225-230 | an insert that waits, waits for a transaction that can commit |
| `OnboardingTheorems.ChosenIsTheFlagged` | app/services/onboarding_v10.py:224-272 | the chosen account is the flagged one, else the first |
| `SeedingTheorems.SeedingFailsExactly` | app/services/onboarding_v10.py:278-372 | seeding, first or repeated, violates a unique index if and only if an unarchived row that is not the seed's own has the name or the code the seed needs, or two seeds end up with one name |
| `SeedingTheorems.SeedingIsComplete` | app/services/onboarding_v10.py:278-372 | when it goes through, each default category is in use with its submitted plan, in the row it had or a new one, the adjustment category under its own name; all others are as they were, and live names and codes are unique |
| `SeedingTheorems.WriteKeepsUnique` | app/db/models.py:347-362 | a row written after the check of both partial indexes leaves live names and codes unique |
| `OnboardingTheorems.OnboardingOpensTheLedger` | app/services/onboarding_v10.py:429-507 | onboarding establishes the ledger invariant with the given balances as openings, the chosen account as primary, and a period starting from the whole wallet |
| `OnboardingTheorems.OnboardingSucceedsExactly` | app/services/onboarding_v10.py:419-507 | it succeeds if and only if the body is acceptable, no account exists, the balances fit, no unarchived category clashes with a seed, and a period is active or none covers today |
| `OnboardingTheorems.ClashRaises` | app/services/onboarding_v10.py:278-372 | such a clash surfaces as the database's violation, not as a refusal of the service |
| `OnboardingTheorems.FreshUserIsOnboarded` | app/services/onboarding_v10.py:378-516 | a fresh user with consent, plans within the income and acceptable accounts is always onboarded |
| `OnboardingTheorems.PartitionFromOnboarding` | app/services/onboarding_v10.py:378-516 | from onboarding on, on every run the periods stay cells of the partition and no date lies in two of them |
| `OnboardingTheorems.GapFromOnboarding` | app/services/onboarding_v10.py:453-507 | from onboarding on, on every run: wallet less displayed balance is what account calls have moved the openings since, plus the rows outside the period or of kind roundup/deposit, less the account-less rows inside it |
| `ReportTheorems.BalanceNowIsTheFold` | app/services/actual.py:553-714 | the balance through grouped maps equals the start plus one signed fold over the period's income and expense rows |
| `ReportTheorems.PlannedTotalIsListed` | app/services/actual.py:642-690 | the planned expense total is the sum of the listed plans |
| `ReportTheorems.ListedWithItsLimit` | app/services/actual.py:590-641 | every active expense category that is no system one is listed with its limit |
| `ReportTheorems.PlanMonthReachesReport` | app/services/plan_month.py:165-207 | after a monthly update the report of the active period shows the last submitted value |
| `ReportTheorems.DeltaTotalExplained` | app/services/actual.py:653-701 | delta_total plus planned income is the sum of the listed deltas plus archived income less archived expense |
| `ReportTheorems.GroupBy` | app/services/actual.py:553-568 | one pass builds a dictionary holding exactly the groups with their sums |
| `ReportTheorems.SumValues` | app/services/actual.py:679-699 | summing a selection of a dictionary's values, in any order |
| `ReportTheorems.ListLines` | app/services/actual.py:653-690 | the loop over seen keys lists exactly the keys of active non-system categories |
| `ReportTheorems.ComputeBalance` | app/services/actual.py:448-714 | the report built step by step is the specified one; a missing period raises |
| `Service.Session.DemoteExistingPrimary` | app/services/accounts.py:84-97 | no account is primary afterwards; none comes or goes and no balance moves |
| `Service.Session.CreateAccount` | app/services/accounts.py:154-211 | does what its specification says to the tables, demoting first |
| `Service.Session.UpdateAccount` | app/services/accounts.py:214-273 | the same for an edit |
| `Service.Session.ResolvePeriod` | app/services/actual.py:174-244 | look-up, insert in a savepoint, second look-up: result and tables as specified |
| `Service.Session.CreateActual` | app/services/actual.py:788-883 | checks, period, row and balance as specified |
| `Service.Session.UpdateActual` | app/services/actual.py:348-427 | patch with correction by the difference of the signed amounts, as specified |
| `Service.Session.Restorations` | app/services/actual.py:929-944 | the loop over the children collects exactly what each account gets back |
| `Service.Session.PayBack` | app/services/actual.py:946-956 | the loop over the affected accounts gives it back, or raises when one leaves its range |
| `Service.Session.DeleteActual` | app/services/actual.py:886-958 | collect, delete with cascade and unlinking, give back: tables as specified |
| `Service.Session.Reconcile` | app/services/actual.py:964-1030 | uses the grouped report, and does what the flat specification says |
| `Service.Session.PostPlanned` | app/services/planned.py:494-569 | as specified; on any failure the savepoint leaves the tables unchanged |
| `Service.Session.UnpostPlanned` | app/services/planned.py:572-587 | unlink, then delete, as specified |
| `Service.Session.PostPlannedBatch` | app/services/planned.py:590-638 | the two returned lists are the posted transactions and the skipped ids in order, the tables as specified |
| `Service.Session.PayOccurrence` | app/services/subscriptions.py:675-760 | create, link, mirror, as specified |
| `Service.Session.PostSubscription` | app/services/subscriptions.py:402-553 | the three paths as specified |
| `Service.Session.UnpostSubscription` | app/services/subscriptions.py:556-594 | unlink, then delete, as specified |
| `Service.Session.ChargeSubscription` | app/services/subscriptions.py:283-346 | as specified, with the new cursor |
| `Service.Session.UpdatePlanMonth` | app/services/plan_month.py:82-207 | as specified; any refusal leaves the tables unchanged |
| `Service.Session.CollectExpense` | app/services/plan_month.py:138-155 | the loop collects exactly the expense plans and their sum, or refuses a limit on income |
| `Service.Session.SetPlans` | app/services/plan_month.py:161-196 | the two loops set the last submitted value in categories and existing limit rows |
| `Service.Session.ApplyTemplate` | app/services/planned.py:359-488 | copies items and lines once, as specified |
| `Service.Session.ValidateAccounts` | app/services/onboarding_v10.py:224-272 | accepts exactly the valid lists and returns the chosen index |
| `Service.Session.InsertAccounts` | app/services/onboarding_v10.py:453-471 | inserts the accounts in order and returns the sum of their balances |
| `Service.Session.SeedCategories` | app/services/onboarding_v10.py:278-372 | the loop over the defaults and then the adjustment category stops at the first violation, else leaves the specified tables |
| `Service.Session.CompleteOnboarding` | app/services/onboarding_v10.py:378-516 | all steps in order, as specified, with the violation a clashing category raises |
| `Service.Session.Serve` | app/services/actual.py:788-958 | one request: committed when it returns, rolled back when it raises |
| `Service.Session.ServeAll` | app/services/actual.py:97-122 | any sequence of requests ends in the state of the run and keeps balance = opening + fold |
| `ProtocolTheorems.ScheduleKeepsInv` | app/services/subscriptions.py:402-824 | every interleaving of post, pay, skip and postpone, with aborts anywhere, keeps the invariant over rows, locks and transactions in flight |
| `ProtocolTheorems.EveryScheduleIsSafe` | app/services/subscriptions.py:402-824 | on every schedule: one live transaction at most per occurrence and per direct posting, none both paid and skipped, balances = base + fold of the committed rows |
| `ProtocolTheorems.CommitIsAtomic` | app/services/subscriptions.py:711-760 | a posting commit acts on the rows as they are then: the occurrence is present and unpaid, the account moves by exactly the amount |
| `ProtocolTheorems.WaitsDescend` | app/services/subscriptions.py:456-462 | whoever waits for a lock waits for a transaction that is less deep in the order subscription, occurrence, account |
| `ProtocolTheorems.NoDeadlock` | app/services/subscriptions.py:696-697 | in every reachable state with an unfinished transaction, some unfinished transaction can take a step that brings it nearer its end |
| `ProtocolTheorems.RunnerMoves` | app/services/subscriptions.py:402-824 | a transaction that is not blocked takes finitely many steps |
| `SerialTheorems.EveryScheduleIsSerial` | app/services/subscriptions.py:402-824 | on every schedule, with aborts anywhere, the tables are those of the committed requests served one after another in commit order, a posting alone paying some unpaid occurrence of the period or posting directly when there is none |
| `SerialTheorems.CommitIsAlone` | app/services/subscriptions.py:675-824 | a commit does what its request does alone on the rows as they are then: same checks, same row, same balance |
| `SerialTheorems.EarliestWithoutPostponements` | app/services/subscriptions.py:482-510 | on every schedule without postponements a posting pays the earliest unpaid occurrence, as of its commit |
| `SerialTheorems.OvertakenPosting` | app/services/subscriptions.py:482-510 | a family of schedules: an occurrence postponed between being read and being locked is paid in its old place, the earliest one if and only if the new date is not after the other's; no order of the two requests gives that outcome otherwise |
| `Cashflow.ListedExactly` | app/services/subscriptions.py:889-909 | the listed events are exactly the cursors between today and the horizon |
| `Cashflow.ProjectSub` | app/services/subscriptions.py:889-909 | the loop of at most a thousand cursors, with its early exit, lists them |
| `Cashflow.SortedIsAscending` | app/services/subscriptions.py:911-911 | sorting gives the same events strictly ascending by date and subscription |
| `Cashflow.TimelineIsExact` | app/services/subscriptions.py:869-911 | the timeline holds exactly the charges of active subscriptions in range, each once, in order, whatever order the rows came in |
| `Cashflow.LimitMissesNothing` | app/services/subscriptions.py:891-893 | with at most a thousand cursors up to the horizon no charge is missed |
| `Cashflow.RunBalance` | app/services/subscriptions.py:913-929 | each line carries the start plus the signed flows up to it |
| `Cashflow.BurdenIsClose` | app/services/subscriptions.py:885-888 | for amounts and intervals the columns can hold, and any division that rounds such values as binary64 does, the monthly burden is off from the exact sum by at most half a cent per expense subscription below 2^52 cents, and by 2^-53 of its share more for a larger one |
| `Cashflow.RoundsLikeExact` | app/services/subscriptions.py:886-886 | for stored values below 2^52 cents, rounding the floating-point quotient gives what rounding the exact quotient would |
| `Cashflow.CashflowProjection` | app/services/subscriptions.py:827-935 | the whole projection: start, burden with the division given, and timeline |
| `SwiftGen.NamesAreRefs` | contract/gen_swift_dto.py:138-191 | every schema a Swift type names is among the property's references |
| `SwiftGen.ComputeSkipped` | contract/gen_swift_dto.py:288-306 | the loop ends, in any iteration order, with the least set that contains the unsupported schemas and whatever refers to a member |
| `SwiftGen.LeastIsUnique` | contract/gen_swift_dto.py:288-306 | that set is unique, so the order does not matter |
| `SwiftGen.EmittedAvoidsSkipped` | contract/gen_swift_dto.py:309-358 | no emitted struct names a pre-skipped schema |
| `SwiftGen.NamedIsEmittedExactly` | contract/gen_swift_dto.py:212-249 | a schema an emitted struct names is emitted if and only if the document has it and rendering did not drop it late |
| `SwiftGen.EndDecides` | contract/gen_swift_dto.py:138-191 | the Swift type of a property is unsupported, or names a schema, exactly as the end of its type path says |
| `SwiftGen.NamesResolveExactly` | contract/gen_swift_dto.py:309-358 | every name in every emitted struct is emitted, if and only if each schema at which a property of a written struct ends is in the document and is an enum or has no property that ends untyped |
| `SwiftGen.LateDropDangles` | contract/gen_swift_dto.py:212-249 | a concrete document where an emitted struct names a schema dropped late |
| `SwiftGen.AbsentRefDangles` | contract/gen_swift_dto.py:212-249 | a concrete document where an emitted struct names a schema the document lacks |
| `MoneyTheorems.DecimalIsExact` | app/bot/parsers.py:49-57 | 28-digit decimal arithmetic gives the exact cents, or raises exactly from 10^28 cents on |
| `MoneyTheorems.ParsesExactly` | app/bot/parsers.py:20-58 | accepted is exactly a well-formed text worth 1..10^12 cents, with its exact value; the parser raises exactly from 10^26 rubles on |
| `MoneyTheorems.DigitsAreApart` | app/bot/parsers.py:20-20 | no decimal digit of any script is a space, a separator or a letter of a suffix |
| `MoneyTheorems.FullStopIsRejected` | app/bot/parsers.py:37-47 | a text that ends in a full stop is refused, whatever stands before it |
| `MoneyTheorems.GroupedCleans` | app/bot/commands.py:64-67 | removing the thousands spaces gives back the number |
| `MoneyTheorems.PrintedReadsBack` | app/bot/commands.py:57-67 | the printed text denotes the amount |
| `MoneyTheorems.ParseUndoesFormat` | app/bot/parsers.py:20-58 | parsing the printed text, with any spacing and any ruble suffix in any case, gives back every amount in 1..10^12 |
| `Money.ParseAmount` | app/bot/parsers.py:20-58 | the text rebound step by step, with the suffix loop and its break, computes the specified parse |
| `EmbedCache.HitKeepsSuffix` | app/ai/embedding_service.py:125-128 | a hit moves the key to the end of the most recent ones |
| `EmbedCache.MissShiftsSuffix` | app/ai/embedding_service.py:130-135 | a miss appends the key and drops the oldest one only when full |
| `EmbedCache.CacheHoldsMostRecent` | app/ai/embedding_service.py:112-136 | after every sequential history the cache holds exactly the last 128 distinct non-empty keys in order of last use, each with a vector given for that key |
| `EmbedCache.CacheIsInvisible` | app/ai/embedding_service.py:112-136 | when the answer depends only on the normalised text, a call returns what the provider would |
| `EmbedCache.EmbeddingService.EmbedText` | app/ai/embedding_service.py:112-136 | look up, move to the end, insert, evict: the cache of the longer history |
| `EmbedCache.EmbeddingService.EmbedTexts` | app/ai/embedding_service.py:138-160 | the loop returns the uncached answers under the same condition |
| `Counterexamples.RepeatedBatchPostsMore` | app/services/planned.py:611-612 | a concrete batch whose repetition posts a line the first run skipped |
| `Counterexamples.StaleActivePeriodBlocks` | app/services/actual.py:231-244 | a concrete state in which no period can be found or created for today |
| `Counterexamples.CorrectionLandsElsewhere` | app/services/actual.py:964-1030 | a concrete state in which reconciling leaves the displayed balance off its target |
| `Counterexamples.RollOverCollides` | app/worker/jobs/close_period.py:191-219 | a concrete state in which rolling over collides with a period created ahead of time |
| `Counterexamples.LinesAreCopiedTwice` | app/services/planned.py:362-374 | a template without limits whose lines are copied on every call |
| `Counterexamples.GrandchildDrifts` | app/services/actual.py:916-944 | nested rows whose delete leaves a balance off the fold |
| `Counterexamples.PrimaryIsLost` | app/services/accounts.py:253-257 | the only account demoted, and the next one not promoted |
| `Counterexamples.MissingAccountRaises` | app/services/actual.py:788-883 | a concrete create on a missing account raises the database's violation |
| `Counterexamples.ReonboardingRaises` | app/services/onboarding_v10.py:278-372 | onboard, archive the seeded category, create one of its name, close the unused account: the same body then raises the database's violation |
| `Counterexamples.DocumentedFormIsRejected` | app/bot/parsers.py:4-4 | the text "1 500,50 руб." is refused |
| `Counterexamples.HugeAmountRaises` | app/bot/parsers.py:49-57 | amounts the parser raises on instead of refusing |

## Left out

- Tenancy: row-level security and the `user_id` filters; the model holds one user's rows.
- HTTP routes, authentication, Telegram handlers, the AI chat, payments and analytics.
- Dates outside the years 1 to 9999: Python raises there, the model's calendar goes on.
- PATCH bodies that set a field to null explicitly; a patch here sets a field or leaves it.
- Legacy `create_actual` and `delete_actual`, which move no balance, and `reset_v10`.
- Creating, editing and deleting categories, planned rows, subscriptions and templates by hand.
- The rest of the rollover job: skipping unposted occurrences, resetting the mirror links, materialising subscriptions.
- `AppUser` fields other than the cycle day and the income; onboarding's account kinds and masks.
- Savepoints around the final link of a payment: the unique index they guard against cannot be violated by a fresh id.
- Category fields other than name, kind, code, plan and the archived flag.
- Row order where a query names none; the oldest row stands for whichever comes back.
- `Service.Session` holds all tables in one field, so aliasing between ORM objects of a session is not modelled.
- Locks taken for foreign keys, batch posting, unposting and deletes are not part of the posting protocol.
- The race over periods fixes the cycle day and today, and lets each transaction look one date up.
- The division in the burden is a parameter that rounds as binary64 does; its bits are not computed.
- Cash-flow event names; the list of rows is given in whatever order the query returned it.
- Schema names that contain the generator's own marker text, and the text of the generated file.
- How text is normalised for the cache: stripping and lower-casing is a function parameter. Calls interleaved at an
  `await` are not modelled.
