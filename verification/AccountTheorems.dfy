// Opening, editing and closing accounts (app/services/accounts.py).
module AccountTheorems {
  import opened Wrappers
  import opened Sums
  import opened Database
  import opened Ledger
  import opened LedgerTheorems

  // ---- The schema and the openings ----

  lemma NoRowYet(db: Db)
    requires Wf(db)
    ensures Fold(db, db.nextAccount) == 0
  {
    assert forall i | i in db.actuals ::
        ActualRowOk(db.actuals, i, db.nextActual, db.periods.Keys, db.accounts.Keys);
    hide SignedDelta;
    SumZero(Share(db.actuals, db.nextAccount), db.nextActual);
  }

  lemma GrownAccountsKeepWf(db: Db, after: Db)
    requires Wf(db) && after == db.(accounts := after.accounts, nextAccount := after.nextAccount)
    requires db.accounts.Keys <= after.accounts.Keys && AccountsOk(after.accounts, after.nextAccount)
    ensures Wf(after)
  {
    hide AccountsOk, PeriodsOk, ActualsOk, PlannedRowsOk, SubRowsOk,
      PlannedLinksUnique, ChargeDatesUnique, SubLinksUnique, CategoriesOk;
    ActualsOkGrow(db.actuals, db.nextActual, db.periods.Keys, db.accounts.Keys, db.periods.Keys, after.accounts.Keys);
    SubRowsOkGrow(db.subs, db.categories.Keys, db.accounts.Keys, db.actuals.Keys, after.accounts.Keys, db.actuals.Keys);
  }

  lemma AppendKeepsAccountsOk(m: map<nat, Account>, n: nat, row: Account)
    requires AccountsOk(m, n) && InRange(row.balance) && (row.primary ==> forall a | a in m :: !m[a].primary)
    ensures AccountsOk(m[n := row], n + 1)
  {
  }

  lemma DemoteKeepsAccountsOk(m: map<nat, Account>, n: nat)
    requires AccountsOk(m, n)
    ensures AccountsOk(Demote(m), n) && forall a | a in Demote(m) :: !Demote(m)[a].primary
  {
  }

  lemma NewAccountsOk(db: Db, balance: int, primary: bool)
    requires AccountsOk(db.accounts, db.nextAccount) && CreateAccount(db, balance, primary).Ok?
    ensures var (after, id) := CreateAccount(db, balance, primary).value;
            AccountsOk(after.accounts, after.nextAccount) && id !in db.accounts
            && after.accounts.Keys == db.accounts.Keys + {id}
  {
    var first := primary || |db.accounts| == 0;
    DemoteKeepsAccountsOk(db.accounts, db.nextAccount);
    AppendKeepsAccountsOk(if first then Demote(db.accounts) else db.accounts, db.nextAccount, Account(balance, first));
    assert db.nextAccount !in db.accounts;
    assert Demote(db.accounts).Keys == db.accounts.Keys;
    hide AccountsOk, Demote, InRange;
  }

  lemma OthersKeepBalance(db: Db, balance: int, primary: bool, a: nat)
    requires CreateAccount(db, balance, primary).Ok? && a in db.accounts && a != db.nextAccount
    ensures a in CreateAccount(db, balance, primary).value.0.accounts
    ensures Opening(CreateAccount(db, balance, primary).value.0, a) == Opening(db, a)
  {
    assert Fold(CreateAccount(db, balance, primary).value.0, a) == Fold(db, a);
    hide Fold;
  }

  // A new account starts with its own balance as opening; the others keep theirs.
  lemma CreateAccountOpens(db: Db, balance: int, primary: bool)
    requires Wf(db) && CreateAccount(db, balance, primary).Ok?
    ensures var (after, id) := CreateAccount(db, balance, primary).value;
            && Wf(after) && id == db.nextAccount && id !in db.accounts && after.actuals == db.actuals
            && after.accounts.Keys == db.accounts.Keys + {id} && Opening(after, id) == balance
            && forall a | a in db.accounts :: Opening(after, a) == Opening(db, a)
  {
    var (after, id) := CreateAccount(db, balance, primary).value;
    NewAccountsOk(db, balance, primary);
    NoRowYet(db);
    assert Fold(after, id) == Fold(db, id);
    assert Opening(after, id) == balance;
    hide Wf, Fold, Opening, AccountsOk;
    GrownAccountsKeepWf(db, after);
    forall a | a in db.accounts
      ensures Opening(after, a) == Opening(db, a)
    {
      OthersKeepBalance(db, balance, primary, a);
    }
  }

  // Editing an account moves its opening by the edit and nobody else's.
  lemma UpdateAccountShifts(db: Db, account: nat, primary: Option<bool>, balance: Option<int>)
    requires Wf(db) && UpdateAccount(db, account, primary, balance).Ok?
    ensures var after := UpdateAccount(db, account, primary, balance).value;
            && Wf(after) && after.actuals == db.actuals && after.accounts.Keys == db.accounts.Keys
            && forall a | a in db.accounts :: Opening(after, a) == Opening(db, a)
                 + (if a == account && balance.Some? then balance.value - db.accounts[account].balance else 0)
  {
    var after := UpdateAccount(db, account, primary, balance).value;
    assert after.accounts.Keys == db.accounts.Keys;
    assert forall a :: Fold(after, a) == Fold(db, a);
    GrownAccountsKeepWf(db, after);
    hide Wf, Fold;
  }

  lemma UnreferencedAccountMayGo(db: Db, account: nat)
    requires Wf(db) && !Referenced(db, account)
    ensures Wf(db.(accounts := db.accounts - {account}))
  {
    var left := db.accounts.Keys - {account};
    assert (db.accounts - {account}).Keys == left;
    assert ActualsOk(db.actuals, db.nextActual, db.periods.Keys, left) by {
      assert forall i | i in db.actuals ::
          ActualRowOk(db.actuals, i, db.nextActual, db.periods.Keys, db.accounts.Keys);
    }
    hide PeriodsOk, PlannedRowsOk, PlannedLinksUnique, ChargeDatesUnique, SubLinksUnique, ActualsOk, CategoriesOk;
  }

  // Closing an account takes only that account away.
  lemma DeleteAccountCloses(db: Db, account: nat)
    requires Wf(db) && DeleteAccount(db, account).Ok?
    ensures var after := DeleteAccount(db, account).value;
            && Wf(after) && after.actuals == db.actuals && after.accounts.Keys == db.accounts.Keys - {account}
            && forall a | a in after.accounts :: Opening(after, a) == Opening(db, a)
  {
    var after := DeleteAccount(db, account).value;
    UnreferencedAccountMayGo(db, account);
    assert forall a :: Fold(after, a) == Fold(db, a);
    hide Wf, Fold, Referenced;
  }

  // ---- One primary account ----

  // A user with accounts has a primary one.
  predicate HasPrimary(m: map<nat, Account>) { m != map[] ==> exists a | a in m :: m[a].primary }

  lemma {:induction false} AtMostOneKey(m: map<nat, Account>, a: nat, b: nat)
    requires |m| <= 1 && a in m && b in m
    ensures a == b
  {
    assert |m.Keys - {a}| == |m.Keys| - 1;
    assert b == a || b in m.Keys - {a};
  }

  lemma CreateKeepsPrimary(db: Db, balance: int, primary: bool)
    requires Wf(db) && HasPrimary(db.accounts) && CreateAccount(db, balance, primary).Ok?
    ensures HasPrimary(CreateAccount(db, balance, primary).value.0.accounts)
  {
    var m := CreateAccount(db, balance, primary).value.0.accounts;
    assert db.nextAccount in m;
    if |db.accounts| != 0 && !primary {
      var a :| a in db.accounts && db.accounts[a].primary;
      assert a in m && m[a].primary;
    }
  }

  lemma DeleteKeepsPrimary(db: Db, account: nat)
    requires HasPrimary(db.accounts) && DeleteAccount(db, account).Ok?
    ensures HasPrimary(DeleteAccount(db, account).value.accounts)
  {
    hide Referenced;
    var m := DeleteAccount(db, account).value.accounts;
    if m != map[] {
      var b :| b in m;
      assert b != account;
      var a :| a in db.accounts && db.accounts[a].primary;
      assert a in m && m[a].primary;
    }
  }

  // Editing keeps a primary account exactly when it does not demote the only
  // account, which the service accepts.
  lemma UpdateKeepsPrimaryExactly(db: Db, account: nat, primary: Option<bool>, balance: Option<int>)
    requires HasPrimary(db.accounts) && UpdateAccount(db, account, primary, balance).Ok?
    ensures HasPrimary(UpdateAccount(db, account, primary, balance).value.accounts)
            <==> !(primary == Some(false) && db.accounts[account].primary)
  {
    var m := UpdateAccount(db, account, primary, balance).value.accounts;
    assert account in m;
    if primary == Some(false) && db.accounts[account].primary {
      forall b | b in m
        ensures b == account
      {
        AtMostOneKey(db.accounts, account, b);
      }
    } else if primary == Some(true) {
      assert m[account].primary;
    } else {
      var a :| a in db.accounts && db.accounts[a].primary;
      assert a in m && m[a].primary;
    }
  }

  // And the next account opened without asking does not become primary either.
  lemma LostPrimaryStaysLost(db: Db, balance: int)
    requires db.accounts != map[] && !HasPrimary(db.accounts) && CreateAccount(db, balance, false).Ok?
    ensures !HasPrimary(CreateAccount(db, balance, false).value.0.accounts)
  {
    var m := CreateAccount(db, balance, false).value.0.accounts;
    assert db.nextAccount in m;
  }
}
