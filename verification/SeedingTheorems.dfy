// The categories onboarding seeds, first or repeated, and when the unique
// indexes refuse them (app/services/onboarding_v10.py).
module SeedingTheorems {
  import opened Wrappers
  import opened Database
  import opened Onboarding

  // ---- The nine seeds ----

  lemma SeedCodesDiffer(j: nat, k: nat)
    requires j < k < SEED_COUNT
    ensures SeedCode(j) != SeedCode(k)
  {
    assert |SEED_CODES[0]| == 4 && |SEED_CODES[1]| == 4 && |SEED_CODES[2]| == 4 && |SEED_CODES[3]| == 7;
    assert |SEED_CODES[4]| == 3 && |SEED_CODES[5]| == 5 && |SEED_CODES[6]| == 6 && |SEED_CODES[7]| == 4;
    assert SEED_CODES[0][0] == 'f' && SEED_CODES[1][0] == 'c' && SEED_CODES[2][0] == 'h' && SEED_CODES[7][0] == 's';
  }

  lemma SeedNamesDiffer(j: nat, k: nat)
    requires j < k < SEED_COUNT
    ensures SeedName(j) != SeedName(k)
  {
    assert |SEED_NAMES[0]| == 8 && |SEED_NAMES[1]| == 4 && |SEED_NAMES[2]| == 3 && |SEED_NAMES[3]| == 9;
    assert |SEED_NAMES[4]| == 8 && |SEED_NAMES[5]| == 7 && |SEED_NAMES[6]| == 8 && |SEED_NAMES[7]| == 8;
    assert |ADJUSTMENT_NAME| == 13;
    assert SEED_NAMES[0][0] == 'П' && SEED_NAMES[4][0] == 'Р' && SEED_NAMES[6][0] == 'З' && SEED_NAMES[7][0] == 'П';
    assert SEED_NAMES[0][1] == 'Р' && SEED_NAMES[7][1] == 'О';
  }

  // The name the row of seed k ends up with: an existing default category keeps
  // its own, the adjustment category is renamed.
  function TargetName(db: Db, k: nat): string
    requires k < SEED_COUNT
  {
    var found := SeedRow(db, k);
    if !SeedCode(k).Adjustment? && found.Some? then db.categories[found.value].name else SeedName(k)
  }

  // ---- The tables after n seeds ----

  predicate LiveAs(row: Category, before: Db, plans: map<string, int>, k: nat)
    requires k < SEED_COUNT
  {
    && !row.archived && row.code == SeedCode(k) && row.name == TargetName(before, k) && row.plan == SeedPlan(plans, k)
    && (row.code.Adjustment? ==> row.kind == Expense)
  }

  // Row c is the one kept for one of the first n seeds.
  predicate IsKept(before: Db, c: nat, n: nat)
    requires n <= SEED_COUNT
  {
    exists k | 0 <= k < n :: SeedRow(before, k) == Some(c)
  }

  predicate IsNewSeed(row: Category, before: Db, plans: map<string, int>, n: nat)
    requires n <= SEED_COUNT
  {
    exists k | 0 <= k < n :: SeedRow(before, k).None? && LiveAs(row, before, plans, k)
  }

  predicate SeedIsLive(m: map<nat, Category>, before: Db, plans: map<string, int>, k: nat)
    requires k < SEED_COUNT
  {
    exists c | c in m :: (SeedRow(before, k).None? ==> c !in before.categories) && LiveAs(m[c], before, plans, k)
  }

  predicate NothingElse(before: Db, after: Db) {
    && after == before.(categories := after.categories, nextCategory := after.nextCategory)
    && before.nextCategory <= after.nextCategory
    && (forall c | c in after.categories :: c < after.nextCategory)
  }

  // Each of the first n seeds is live with its name and plan, in the row it had
  // or in a new one; every other row is as before.
  predicate SeededTo(before: Db, after: Db, plans: map<string, int>, n: nat)
    requires n <= SEED_COUNT
  {
    && NothingElse(before, after)
    && (forall c | c in before.categories ::
          c in after.categories && after.categories[c].code == before.categories[c].code)
    && (forall c | c in before.categories && !IsKept(before, c, n) :: after.categories[c] == before.categories[c])
    && (forall k | 0 <= k < n && SeedRow(before, k).Some? ::
          LiveAs(after.categories[SeedRow(before, k).value], before, plans, k))
    && (forall c | c in after.categories && c !in before.categories ::
          before.nextCategory <= c && IsNewSeed(after.categories[c], before, plans, n))
    && (forall k | 0 <= k < n :: SeedIsLive(after.categories, before, plans, k))
  }

  // Another row that is not archived has the name or the code seed k needs, or
  // an earlier seed ends up with its name.
  predicate ClashAt(before: Db, k: nat)
    requires k < SEED_COUNT
  {
    || (exists c | c in before.categories ::
          && SeedRow(before, k) != Some(c) && !before.categories[c].archived
          && (before.categories[c].name == TargetName(before, k) || before.categories[c].code == SeedCode(k)))
    || (exists j | 0 <= j < k :: TargetName(before, j) == TargetName(before, k))
  }

  lemma TakenNameClashes(db: Db, k: nat, c: nat)
    requires k < SEED_COUNT && c in db.categories && SeedRow(db, k) != Some(c)
    requires !db.categories[c].archived && db.categories[c].name == TargetName(db, k)
    ensures ClashAt(db, k)
  {
    hide TargetName, SeedRow, SeedCode;
  }

  // ---- One seed ----

  lemma SameSeedRow(before: Db, mid: Db, plans: map<string, int>, n: nat)
    requires n < SEED_COUNT && SeededTo(before, mid, plans, n) && CategoriesOk(before.categories, before.nextCategory)
    ensures SeedRow(mid, n) == SeedRow(before, n)
    ensures SeedRow(before, n).Some? ==>
              mid.categories[SeedRow(before, n).value] == before.categories[SeedRow(before, n).value]
  {
    forall j | 0 <= j < n
      ensures SeedCode(j) != SeedCode(n)
    {
      SeedCodesDiffer(j, n);
    }
    hide SeedCode, TargetName, LiveClash;
  }

  // The row seed k is given by a step.
  function NewRow(mid: Db, plans: map<string, int>, k: nat): Category
    requires k < SEED_COUNT
  {
    var found := SeedRow(mid, k);
    if found.Some? then Reseeded(mid.categories[found.value], SeedPlan(plans, k))
    else Category(SeedName(k), Expense, false, SeedCode(k), SeedPlan(plans, k))
  }

  lemma NewRowIsLive(before: Db, mid: Db, plans: map<string, int>, n: nat)
    requires n < SEED_COUNT && SeedRow(mid, n) == SeedRow(before, n)
    requires SeedRow(before, n).Some? ==>
               mid.categories[SeedRow(before, n).value] == before.categories[SeedRow(before, n).value]
    ensures LiveAs(NewRow(mid, plans, n), before, plans, n)
  {
    hide SeedPlan;
  }

  lemma StepIs(mid: Db, plans: map<string, int>, k: nat)
    requires k < SEED_COUNT
    ensures var found := SeedRow(mid, k);
            var id := if found.Some? then found.value else mid.nextCategory;
            SeedCategory(mid, plans, k)
            == if LiveClash(mid.categories, id, NewRow(mid, plans, k)) then Err(IntegrityError)
               else Ok(mid.(categories := mid.categories[id := NewRow(mid, plans, k)],
                            nextCategory := if found.Some? then mid.nextCategory else mid.nextCategory + 1))
  {
    hide LiveClash, SeedRow, Reseeded, SeedName, SeedCode, SeedPlan;
  }

  predicate ClashInStep(mid: Db, n: nat, row: Category)
    requires n < SEED_COUNT
  {
    var found := SeedRow(mid, n);
    LiveClash(mid.categories, if found.Some? then found.value else mid.nextCategory, row)
  }

  lemma StepClashWasThere(before: Db, mid: Db, plans: map<string, int>, n: nat)
    requires n < SEED_COUNT && SeededTo(before, mid, plans, n)
    requires SeedRow(mid, n) == SeedRow(before, n) && LiveAs(NewRow(mid, plans, n), before, plans, n)
    requires forall j | 0 <= j < n :: SeedCode(j) != SeedCode(n)
    requires ClashInStep(mid, n, NewRow(mid, plans, n))
    ensures ClashAt(before, n)
  {
    var row, found := NewRow(mid, plans, n), SeedRow(mid, n);
    var id := if found.Some? then found.value else mid.nextCategory;
    var c :| c in mid.categories && c != id && !mid.categories[c].archived
        && (mid.categories[c].name == row.name || mid.categories[c].code == row.code);
    hide NewRow, SeedCode, SeedName, SeedPlan, TargetName;
    if c in before.categories {
      if IsKept(before, c, n) {
        var j :| 0 <= j < n && SeedRow(before, j) == Some(c);
        assert LiveAs(mid.categories[c], before, plans, j);
      }
    } else {
      assert IsNewSeed(mid.categories[c], before, plans, n);
      var j :| 0 <= j < n && SeedRow(before, j).None? && LiveAs(mid.categories[c], before, plans, j);
    }
  }

  lemma ClashIsStillThere(before: Db, mid: Db, plans: map<string, int>, n: nat)
    requires n < SEED_COUNT && SeededTo(before, mid, plans, n) && ClashAt(before, n)
    requires SeedRow(mid, n) == SeedRow(before, n) && LiveAs(NewRow(mid, plans, n), before, plans, n)
    requires forall j | 0 <= j < n :: SeedCode(j) != SeedCode(n) && !SeedCode(j).Adjustment?
    requires forall c | c in before.categories :: c < before.nextCategory
    ensures ClashInStep(mid, n, NewRow(mid, plans, n))
  {
    var row, found := NewRow(mid, plans, n), SeedRow(mid, n);
    var id := if found.Some? then found.value else mid.nextCategory;
    hide NewRow, SeedCode, SeedName, SeedPlan;
    if j :| 0 <= j < n && TargetName(before, j) == TargetName(before, n) {
      assert SeedIsLive(mid.categories, before, plans, j);
      var c :| c in mid.categories && (SeedRow(before, j).None? ==> c !in before.categories)
          && LiveAs(mid.categories[c], before, plans, j);
      assert c != id;
    } else {
      var c :| c in before.categories && SeedRow(before, n) != Some(c) && !before.categories[c].archived
          && (before.categories[c].name == TargetName(before, n) || before.categories[c].code == SeedCode(n));
      forall j | 0 <= j < n
        ensures SeedRow(before, j) != Some(c)
      {
        assert TargetName(before, j) != TargetName(before, n);
      }
      assert !IsKept(before, c, n);
      assert c != id && mid.categories[c] == before.categories[c];
    }
  }

  // The step is refused exactly when the seed clashes in the first state.
  lemma ClashesExactly(before: Db, mid: Db, plans: map<string, int>, n: nat)
    requires n < SEED_COUNT && SeededTo(before, mid, plans, n) && CategoriesOk(before.categories, before.nextCategory)
    ensures SeedCategory(mid, plans, n).Err? <==> ClashAt(before, n)
  {
    SameSeedRow(before, mid, plans, n);
    NewRowIsLive(before, mid, plans, n);
    StepIs(mid, plans, n);
    forall j | 0 <= j < n
      ensures SeedCode(j) != SeedCode(n) && !SeedCode(j).Adjustment?
    {
      SeedCodesDiffer(j, n);
    }
    hide SeedCategory, NewRow, SeedCode, SeedName, SeedPlan, SeededTo;
    if SeedCategory(mid, plans, n).Err? {
      StepClashWasThere(before, mid, plans, n);
    }
    if ClashAt(before, n) {
      ClashIsStillThere(before, mid, plans, n);
    }
  }

  // ---- All seeds ----

  // The table after one accepted seed: row `id` is written, nothing else.
  predicate Wrote(before: Db, mid: Db, after: Db, n: nat, id: nat, row: Category)
    requires n < SEED_COUNT
  {
    && after.categories == mid.categories[id := row]
    && (if SeedRow(before, n).Some? then id == SeedRow(before, n).value else id == mid.nextCategory)
  }

  lemma KeptRowsStay(before: Db, mid: Db, after: Db, plans: map<string, int>, n: nat, id: nat, row: Category)
    requires n < SEED_COUNT && SeededTo(before, mid, plans, n) && Wrote(before, mid, after, n, id, row)
    requires LiveAs(row, before, plans, n)
    requires forall j | 0 <= j < n :: SeedCode(j) != SeedCode(n)
    requires forall c | c in before.categories :: c < before.nextCategory
    ensures forall c | c in before.categories ::
              c in after.categories && after.categories[c].code == before.categories[c].code
    ensures forall c | c in before.categories && !IsKept(before, c, n + 1) ::
              after.categories[c] == before.categories[c]
    ensures forall k | 0 <= k < n + 1 && SeedRow(before, k).Some? ::
              LiveAs(after.categories[SeedRow(before, k).value], before, plans, k)
  {
    hide SeedCode, SeedName, SeedPlan, TargetName;
    forall c | c in before.categories && !IsKept(before, c, n + 1)
      ensures after.categories[c] == before.categories[c]
    {
      assert SeedRow(before, n) != Some(c);
      assert forall k | 0 <= k < n :: SeedRow(before, k) != Some(c);
      assert !IsKept(before, c, n);
    }
  }

  lemma NewRowsStay(before: Db, mid: Db, after: Db, plans: map<string, int>, n: nat, id: nat, row: Category)
    requires n < SEED_COUNT && SeededTo(before, mid, plans, n) && Wrote(before, mid, after, n, id, row)
    requires LiveAs(row, before, plans, n)
    ensures forall c | c in after.categories && c !in before.categories ::
              before.nextCategory <= c && IsNewSeed(after.categories[c], before, plans, n + 1)
  {
    hide SeedCode, SeedName, SeedPlan, TargetName, LiveAs;
    forall c | c in after.categories && c !in before.categories
      ensures before.nextCategory <= c && IsNewSeed(after.categories[c], before, plans, n + 1)
    {
      if c == id {
        assert SeedRow(before, n).None?;
      } else {
        assert IsNewSeed(mid.categories[c], before, plans, n);
        var k :| 0 <= k < n && SeedRow(before, k).None? && LiveAs(mid.categories[c], before, plans, k);
        assert LiveAs(after.categories[c], before, plans, k);
      }
    }
  }

  lemma SeedsStayLive(before: Db, mid: Db, after: Db, plans: map<string, int>, n: nat, id: nat, row: Category)
    requires n < SEED_COUNT && SeededTo(before, mid, plans, n) && Wrote(before, mid, after, n, id, row)
    requires LiveAs(row, before, plans, n) && row.code == SeedCode(n)
    requires forall j | 0 <= j < n :: SeedCode(j) != SeedCode(n)
    requires forall c | c in before.categories :: c < before.nextCategory
    ensures forall k | 0 <= k < n + 1 :: SeedIsLive(after.categories, before, plans, k)
  {
    forall k | 0 <= k < n + 1
      ensures SeedIsLive(after.categories, before, plans, k)
    {
      hide SeedCode, SeedName, SeedPlan, TargetName;
      if k == n {
        assert id in after.categories && LiveAs(after.categories[id], before, plans, n);
      } else {
        assert SeedIsLive(mid.categories, before, plans, k);
        var c :| c in mid.categories && (SeedRow(before, k).None? ==> c !in before.categories)
            && LiveAs(mid.categories[c], before, plans, k);
        assert c != id;
        assert LiveAs(after.categories[c], before, plans, k);
      }
    }
  }

  // What an accepted step of seed n writes.
  lemma StepWrites(before: Db, mid: Db, plans: map<string, int>, n: nat)
    requires n < SEED_COUNT && SeedRow(mid, n) == SeedRow(before, n) && NothingElse(before, mid)
    requires SeedRow(before, n).Some? ==> SeedRow(before, n).value in mid.categories
    requires SeedCategory(mid, plans, n).Ok?
    ensures var after := SeedCategory(mid, plans, n).value;
            var id := if SeedRow(before, n).Some? then SeedRow(before, n).value else mid.nextCategory;
            Wrote(before, mid, after, n, id, NewRow(mid, plans, n)) && NothingElse(before, after)
  {
    StepIs(mid, plans, n);
    hide SeedCategory, NewRow, SeedRow, LiveClash;
  }

  lemma StepKeepsSeeded(before: Db, mid: Db, plans: map<string, int>, n: nat)
    requires n < SEED_COUNT && SeededTo(before, mid, plans, n) && CategoriesOk(before.categories, before.nextCategory)
    requires SeedCategory(mid, plans, n).Ok?
    ensures SeededTo(before, SeedCategory(mid, plans, n).value, plans, n + 1)
  {
    SameSeedRow(before, mid, plans, n);
    NewRowIsLive(before, mid, plans, n);
    assert NothingElse(before, mid);
    assert NewRow(mid, plans, n).code == SeedCode(n);
    forall j | 0 <= j < n
      ensures SeedCode(j) != SeedCode(n)
    {
      SeedCodesDiffer(j, n);
    }
    hide SeedCategory, NewRow, SeedRow, SeedCode, SeedName, SeedPlan, TargetName, LiveAs, LiveClash, NothingElse,
      IsKept, IsNewSeed, SeedIsLive, Wrote;
    StepWrites(before, mid, plans, n);
    var id := if SeedRow(before, n).Some? then SeedRow(before, n).value else mid.nextCategory;
    var row, after := NewRow(mid, plans, n), SeedCategory(mid, plans, n).value;
    KeptRowsStay(before, mid, after, plans, n, id, row);
    NewRowsStay(before, mid, after, plans, n, id, row);
    SeedsStayLive(before, mid, after, plans, n, id, row);
  }

  // A checked write keeps the unique indexes.
  lemma WriteKeepsUnique(m: map<nat, Category>, n: nat, id: nat, row: Category, next: nat)
    requires CategoriesOk(m, n) && !LiveClash(m, id, row) && !row.archived && n <= next && id < next
    ensures CategoriesOk(m[id := row], next)
  {
    var after := m[id := row];
    forall c | c in after && !after[c].archived
      ensures !LiveClash(after, c, after[c])
    {
      if c != id {
        assert !LiveClash(m, c, m[c]);
        assert !m[c].archived && c in m;
      }
    }
  }

  lemma StepKeepsUnique(mid: Db, plans: map<string, int>, k: nat)
    requires k < SEED_COUNT && CategoriesOk(mid.categories, mid.nextCategory) && SeedCategory(mid, plans, k).Ok?
    ensures var after := SeedCategory(mid, plans, k).value; CategoriesOk(after.categories, after.nextCategory)
  {
    StepIs(mid, plans, k);
    var found := SeedRow(mid, k);
    var id := if found.Some? then found.value else mid.nextCategory;
    var row := NewRow(mid, plans, k);
    var after := SeedCategory(mid, plans, k).value;
    assert !row.archived && id < after.nextCategory;
    hide SeedCategory, NewRow, SeedRow, LiveClash, CategoriesOk;
    WriteKeepsUnique(mid.categories, mid.nextCategory, id, row, after.nextCategory);
  }

  lemma NothingSeeded(db: Db, plans: map<string, int>)
    requires CategoriesOk(db.categories, db.nextCategory)
    ensures SeededTo(db, db, plans, 0)
  {
    hide LiveClash, LiveAs, SeedRow;
  }

  lemma RefusedByIndex(mid: Db, plans: map<string, int>, k: nat)
    requires k < SEED_COUNT
    ensures SeedCategory(mid, plans, k).Err? ==> SeedCategory(mid, plans, k).error == IntegrityError
  {
    hide SeedRow, LiveClash;
  }

  lemma {:induction false} SeedingUpTo(db: Db, plans: map<string, int>, n: nat)
    requires n <= SEED_COUNT && CategoriesOk(db.categories, db.nextCategory)
    ensures Seeded(db, plans, n).Err? <==> exists k | 0 <= k < n :: ClashAt(db, k)
    ensures Seeded(db, plans, n).Err? ==> Seeded(db, plans, n).error == IntegrityError
    ensures Seeded(db, plans, n).Ok? ==>
              var after := Seeded(db, plans, n).value;
              SeededTo(db, after, plans, n) && CategoriesOk(after.categories, after.nextCategory)
  {
    hide ClashAt, SeededTo, CategoriesOk, SeedCategory;
    if n == 0 {
      NothingSeeded(db, plans);
    } else {
      SeedingUpTo(db, plans, n - 1);
      var before := Seeded(db, plans, n - 1);
      if before.Err? {
        var k :| 0 <= k < n - 1 && ClashAt(db, k);
        assert 0 <= k < n && ClashAt(db, k);
      } else {
        var mid := before.value;
        ClashesExactly(db, mid, plans, n - 1);
        RefusedByIndex(mid, plans, n - 1);
        if SeedCategory(mid, plans, n - 1).Ok? {
          StepKeepsSeeded(db, mid, plans, n - 1);
          StepKeepsUnique(mid, plans, n - 1);
        } else {
          assert 0 <= n - 1 < n && ClashAt(db, n - 1);
        }
      }
    }
  }

  lemma {:induction false} RefusalStays(db: Db, plans: map<string, int>, n: nat, m: nat)
    requires n <= m <= SEED_COUNT && Seeded(db, plans, n).Err?
    ensures Seeded(db, plans, m) == Seeded(db, plans, n)
  {
    if n == m {
    } else {
      RefusalStays(db, plans, n, m - 1);
    }
  }

  // Seeding, first or repeated, is refused if and only if a row that is not
  // archived and is not the seed's own has the name or the code the seed needs,
  // or two seeds end up with the same name.
  lemma SeedingFailsExactly(db: Db, plans: map<string, int>)
    requires CategoriesOk(db.categories, db.nextCategory)
    ensures Seeded(db, plans, SEED_COUNT).Err? <==> exists k | 0 <= k < SEED_COUNT :: ClashAt(db, k)
    ensures Seeded(db, plans, SEED_COUNT).Err? ==> Seeded(db, plans, SEED_COUNT) == Err(IntegrityError)
  {
    SeedingUpTo(db, plans, SEED_COUNT);
    hide *;
  }

  // When it goes through, each default category is in use with its submitted
  // plan, the adjustment category is in use under its own name, every other
  // category is as it was, and the unique indexes hold.
  lemma SeedingIsComplete(db: Db, plans: map<string, int>)
    requires CategoriesOk(db.categories, db.nextCategory) && Seeded(db, plans, SEED_COUNT).Ok?
    ensures var after := Seeded(db, plans, SEED_COUNT).value;
            SeededTo(db, after, plans, SEED_COUNT) && CategoriesOk(after.categories, after.nextCategory)
  {
    SeedingUpTo(db, plans, SEED_COUNT);
    hide *;
  }

  lemma EmptyTableNeverClashes(db: Db, k: nat)
    requires db.categories == map[] && k < SEED_COUNT
    ensures !ClashAt(db, k)
  {
    forall j | 0 <= j < k
      ensures TargetName(db, j) != TargetName(db, k)
    {
      SeedNamesDiffer(j, k);
    }
    hide SeedName, SeedCode;
  }
}
