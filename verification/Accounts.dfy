/** Whose an account at the ntfy server is, under any interleaving: each user has the one drawn for them, in the table,
    in the map and in every request on its way. */
module Accounts {
  import opened Base
  import opened Models
  import opened Device
  import opened Memory
  import opened Tables
  import opened Registry
  import opened Concurrent
  import SoleAdmin
  import Ledger

  predicate Has(accounts: map<ID, ID>, u: ID, n: ID) {
    u in accounts && accounts[u] == n
  }

  /** No two users share an account. */
  ghost predicate OneEach(accounts: map<ID, ID>) {
    forall u, v | u in accounts && v in accounts && u != v :: accounts[u] != accounts[v]
  }

  ghost predicate RowsHave(db: Db, accounts: map<ID, ID>) {
    && (forall u | u in db.users :: Has(accounts, u, db.users[u].ntfyId))
    && (forall n | n in db.ntfy :: db.ntfy[n].id == n)
  }

  ghost predicate CachedHave(users: map<ID, UserState>, accounts: map<ID, ID>) {
    forall u | u in users :: Has(accounts, u, users[u].ntfy.id)
  }

  predicate CarriesAccount(task: Task, accounts: map<ID, ID>) {
    match task
    case Consuming(st, _) => Has(accounts, st.user.id, st.ntfy.id)
    case AddingToken(st, _) => Has(accounts, st.user.id, st.ntfy.id)
    case AddingUser(st, _) => Has(accounts, st.user.id, st.ntfy.id)
    case Enabling(uid, n, _) => Has(accounts, uid, n)
    case _ => true
  }

  ghost predicate AccountsOk(s: Server) {
    && OneEach(s.accounts) && RowsHave(s.books.db, s.accounts) && CachedHave(s.mem.users, s.accounts)
    && forall t | t in s.tasks :: CarriesAccount(s.tasks[t], s.accounts)
  }

  lemma StepKeepsAccount(d: UserState, e: Device.Event)
    ensures Step(d, e).ntfy.id == d.ntfy.id
  {
  }

  lemma CachedStillHave(db: Db, m: Mem, task: Task, x: Env, accounts: map<ID, ID>)
    requires CachedHave(m.users, accounts) && CarriesAccount(task, accounts)
    ensures CachedHave(Perform(db, m, task, x).mem.users, accounts)
  {
    if CreatesUser(task) {
      hide Entering, Following, CreateState, Prepared;
    } else if EntersGuards(task) {
      hide Creating, Following, Step, Refused, DeleteInvite, UpdateSettingsRow, UnusedOf;
      if task.Serving? && task.uid in m.users {
        StepKeepsAccount(m.users[task.uid], Device.Event.Ping(x.now, x.at));
        StepKeepsAccount(m.users[task.uid], Device.Event.Pause(x.at));
        StepKeepsAccount(m.users[task.uid], Device.Event.Unpause(x.at));
      }
    } else {
      CachedStillHaveLater(db, m, task, x, accounts);
    }
  }

  lemma CachedStillHaveLater(db: Db, m: Mem, task: Task, x: Env, accounts: map<ID, ID>)
    requires !CreatesUser(task) && !EntersGuards(task) && CachedHave(m.users, accounts)
    ensures CachedHave(Perform(db, m, task, x).mem.users, accounts)
  {
    hide Creating, Entering, DeleteUser, CreateInvite, HasInvite, Step;
    if task.Adopting? && task.uid in m.users {
      StepKeepsAccount(m.users[task.uid], Device.Event.Settings(task.req, x.at));
    }
  }

  lemma NextCarriesAccount(db: Db, m: Mem, task: Task, x: Env, accounts: map<ID, ID>)
    requires CachedHave(m.users, accounts) && CarriesAccount(task, accounts)
    ensures var f := Perform(db, m, task, x);
            f.next.Some? ==>
              CarriesAccount(f.next.value, accounts + (if f.tx.Some? then NewAccounts(f.tx.value) else map[]))
  {
    if CreatesUser(task) {
      hide Entering, Following, CreateState, Prepared;
    } else if EntersGuards(task) {
      EnteringCarriesAccount(db, m, task, x, accounts);
    } else {
      LaterCarriesAccount(db, m, task, x, accounts);
    }
  }

  lemma EnteringCarriesAccount(db: Db, m: Mem, task: Task, x: Env, accounts: map<ID, ID>)
    requires EntersGuards(task) && CachedHave(m.users, accounts)
    ensures var f := Perform(db, m, task, x);
            && (f.next.Some? ==> CarriesAccount(f.next.value, accounts))
            && (f.tx.Some? ==> NewAccounts(f.tx.value) == map[])
    ensures accounts + map[] == accounts
  {
    hide Creating, Following, Step, Refused, DeleteInvite, UpdateSettingsRow, UnusedOf, OnDevice, Rejection;
  }

  lemma LaterCarriesAccount(db: Db, m: Mem, task: Task, x: Env, accounts: map<ID, ID>)
    requires !CreatesUser(task) && !EntersGuards(task)
    ensures var next := Perform(db, m, task, x).next; next.Some? ==> CarriesAccount(next.value, accounts)
  {
    hide Creating, Entering, DeleteUser, CreateInvite, OnDevice, DropInvites, HasInvite;
  }

  lemma RowsStillHave(b: Ledger.Books, tx: Ledger.Tx, accounts: map<ID, ID>)
    requires RowsHave(b.db, accounts) && SoleAdmin.Wired(tx)
    requires forall u | u in NewAccounts(tx) :: u !in accounts
    ensures RowsHave(Ledger.Commit(b, tx).db, accounts + NewAccounts(tx))
  {
    hide SettingsInTable, Insertable;
    if tx.NewSettings? && tx.uid in b.db.users { SettingsKeepAccount(b.db.users[tx.uid], tx.req); }
  }

  lemma SettingsKeepAccount(u: User, req: UpdateSettings)
    ensures SettingsInTable(u, req).ntfyId == u.ntfyId
  {
  }

  lemma StillCarries(task: Task, accounts: map<ID, ID>, accounts': map<ID, ID>)
    requires CarriesAccount(task, accounts) && forall u | u in accounts :: Has(accounts', u, accounts[u])
    ensures CarriesAccount(task, accounts')
  {
  }

  lemma OneMoreAccount(accounts: map<ID, ID>, tx: Ledger.Tx)
    requires OneEach(accounts)
    requires tx.AddState? ==>
               tx.st.user.id !in accounts && forall u | u in accounts :: accounts[u] != tx.st.ntfy.id
    ensures OneEach(accounts + NewAccounts(tx))
    ensures forall u | u in NewAccounts(tx) :: u !in accounts
    ensures forall u | u in accounts :: Has(accounts + NewAccounts(tx), u, accounts[u])
  {
  }

  lemma CachedHaveMore(users: map<ID, UserState>, accounts: map<ID, ID>, accounts': map<ID, ID>)
    requires CachedHave(users, accounts) && forall u | u in accounts :: Has(accounts', u, accounts[u])
    ensures CachedHave(users, accounts')
  {
  }

  lemma AccountsAct(s: Server, t: ID, x: Env)
    requires AccountsOk(s) && SoleAdmin.Orderly(s) && Allowed(s, Act(t, x))
    ensures AccountsOk(Next(s, Act(t, x)))
  {
    hide Perform, Ledger.Commit, Ledger.Fresh, CarriesAccount, RowsHave, CachedHave, OneEach, NewAccounts,
      SoleAdmin.Orderly, SoleAdmin.Lawful, SoleAdmin.Wired, CreateState, NewTokens, NewInviteTokens;
    SoleAdmin.TxIsLawful(s, t, x);
    var f := Perform(s.books.db, s.mem, s.tasks[t], x);
    var accounts' := s.accounts + (if f.tx.Some? then NewAccounts(f.tx.value) else map[]);
    CachedStillHave(s.books.db, s.mem, s.tasks[t], x, s.accounts);
    NextCarriesAccount(s.books.db, s.mem, s.tasks[t], x, s.accounts);
    if f.tx.Some? {
      OneMoreAccount(s.accounts, f.tx.value);
      RowsStillHave(s.books, f.tx.value, s.accounts);
    } else {
      assert accounts' == s.accounts;
    }
    CachedHaveMore(f.mem.users, s.accounts, accounts');
    forall o | o in s.tasks ensures CarriesAccount(s.tasks[o], accounts') {
      StillCarries(s.tasks[o], s.accounts, accounts');
    }
  }

  lemma AccountsNext(s: Server, e: Move)
    requires AccountsOk(s) && SoleAdmin.Orderly(s) && Allowed(s, e)
    ensures AccountsOk(Next(s, e))
  {
    hide SoleAdmin.Orderly, Perform, ToPersist, Step;
    match e
    case Act(t, x) => AccountsAct(s, t, x);
    case ScanAll(_, now, clock, _) =>
      forall u | u in s.mem.users ensures Step(s.mem.users[u], Scan(now, clock(u))).ntfy.id == s.mem.users[u].ntfy.id {
        StepKeepsAccount(s.mem.users[u], Scan(now, clock(u)));
      }
    case Crash(loaded) =>
      forall u | u in loaded.users ensures Has(s.accounts, u, loaded.users[u].ntfy.id) {
        assert IsLoaded(s.books.db, loaded.users[u]);
      }
    case Arrive(_, _) =>
  }

  lemma {:induction false} AlwaysAccounts(es: seq<Move>)
    requires AllAllowed(COLD, es)
    ensures AccountsOk(After(COLD, es)) && SoleAdmin.Orderly(After(COLD, es))
  {
    SoleAdmin.AlwaysOrderly(es);
    if es != [] {
      AlwaysAccounts(es[..|es| - 1]);
      AccountsNext(After(COLD, es[..|es| - 1]), es[|es| - 1]);
    }
  }
}
