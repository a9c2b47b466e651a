/** Whose a token is, under any interleaving: an access token, wherever it is kept, belongs to the one user it was
    drawn for. */
module Issued {
  import opened Base
  import opened Uptime
  import opened Models
  import opened Device
  import opened Memory
  import opened Tables
  import opened Registry
  import opened Concurrent
  import Ledger

  predicate Belongs(issued: map<string, ID>, token: string, u: ID) {
    token in issued && issued[token] == u
  }

  ghost predicate StoredTokensOk(rows: map<ID, User>, issued: map<string, ID>) {
    forall u | u in rows :: Belongs(issued, rows[u].accessToken, u)
  }

  ghost predicate CachedTokensOk(users: map<ID, UserState>, issued: map<string, ID>) {
    forall u | u in users :: Belongs(issued, users[u].user.accessToken, u)
  }

  ghost predicate AcceptedOk(tokens: map<string, ID>, issued: map<string, ID>) {
    forall token | token in tokens :: Belongs(issued, token, tokens[token])
  }

  predicate CarriesIssued(task: Task, issued: map<string, ID>) {
    match task
    case Consuming(st, _) => Belongs(issued, st.user.accessToken, st.user.id)
    case AddingToken(st, _) => Belongs(issued, st.user.accessToken, st.user.id)
    case AddingUser(st, _) => Belongs(issued, st.user.accessToken, st.user.id)
    case Renaming(u, token) => Belongs(issued, token, u)
    case Swapping(u, was, token) => Belongs(issued, was, u) && Belongs(issued, token, u)
    case _ => true
  }

  ghost predicate TasksIssued(tasks: map<ID, Task>, issued: map<string, ID>) {
    forall t | t in tasks :: CarriesIssued(tasks[t], issued)
  }

  ghost predicate IssuedOk(s: Server) {
    && StoredTokensOk(s.books.db.users, s.issued) && CachedTokensOk(s.mem.users, s.issued)
    && AcceptedOk(s.mem.tokens, s.issued) && TasksIssued(s.tasks, s.issued)
  }

  /** A device event leaves the token alone. */
  lemma StepKeepsToken(d: UserState, e: Device.Event)
    requires !e.Edit?
    ensures Step(d, e).user.accessToken == d.user.accessToken
  {
  }

  lemma CreatingKeepsIssued(db: Db, m: Mem, task: Task, x: Env, issued: map<string, ID>)
    requires CreatesUser(task) && CarriesIssued(task, issued)
    requires CachedTokensOk(m.users, issued) && AcceptedOk(m.tokens, issued)
    ensures var f := Perform(db, m, task, x);
            && CachedTokensOk(f.mem.users, issued) && AcceptedOk(f.mem.tokens, issued)
            && (f.next.Some? ==> CarriesIssued(f.next.value,
               issued + (if f.tx.Some? then NewTokens(f.tx.value) else map[])))
  {
    hide Entering, Following, CreateState, Prepared;
  }

  lemma EnteringKeepsIssued(db: Db, m: Mem, task: Task, x: Env, issued: map<string, ID>)
    requires EntersGuards(task) && CachedTokensOk(m.users, issued) && AcceptedOk(m.tokens, issued)
    ensures var f := Perform(db, m, task, x);
            && CachedTokensOk(f.mem.users, issued) && AcceptedOk(f.mem.tokens, issued)
            && (f.next.Some? ==> CarriesIssued(f.next.value,
               issued + (if f.tx.Some? then NewTokens(f.tx.value) else map[])))
  {
    hide Creating, Following, Step, Refused, DeleteInvite, UpdateSettingsRow, UnusedOf;
    if task.Serving? && task.uid in m.users {
      StepKeepsToken(m.users[task.uid], Device.Event.Ping(x.now, x.at));
      StepKeepsToken(m.users[task.uid], Device.Event.Pause(x.at));
      StepKeepsToken(m.users[task.uid], Device.Event.Unpause(x.at));
    }
  }

  lemma FollowingKeepsCached(db: Db, m: Mem, task: Task, x: Env, issued: map<string, ID>)
    requires !CreatesUser(task) && !EntersGuards(task) && CarriesIssued(task, issued) && CachedTokensOk(m.users, issued)
    ensures CachedTokensOk(Perform(db, m, task, x).mem.users, issued)
  {
    hide Creating, Entering, Step, DeleteUser, CreateInvite, HasInvite;
    if task.Adopting? && task.uid in m.users {
      StepKeepsToken(m.users[task.uid], Device.Event.Settings(task.req, x.at));
    }
  }

  lemma FollowingKeepsAccepted(db: Db, m: Mem, task: Task, x: Env, issued: map<string, ID>)
    requires !CreatesUser(task) && !EntersGuards(task) && CarriesIssued(task, issued) && AcceptedOk(m.tokens, issued)
    ensures AcceptedOk(Perform(db, m, task, x).mem.tokens, issued)
  {
    hide Creating, Entering, Step, DeleteUser, CreateInvite, HasInvite;
  }

  lemma FollowingHandsOnIssued(db: Db, m: Mem, task: Task, x: Env, issued: map<string, ID>)
    requires !CreatesUser(task) && !EntersGuards(task) && CarriesIssued(task, issued) && CachedTokensOk(m.users, issued)
    ensures var f := Perform(db, m, task, x);
            && (f.next.Some? ==> CarriesIssued(f.next.value, issued))
            && (f.tx.Some? ==> NewTokens(f.tx.value) == map[])
  {
    hide Creating, Entering, OnDevice, DeleteUser, CreateInvite, DropInvites, HasInvite;
  }

  lemma CommitKeepsIssued(b: Ledger.Books, tx: Ledger.Tx, issued: map<string, ID>)
    requires StoredTokensOk(b.db.users, issued)
    requires forall token | token in NewTokens(tx) :: token !in issued
    ensures StoredTokensOk(Ledger.Commit(b, tx).db.users, issued + NewTokens(tx))
  {
    hide Insertable, SettingsInTable;
    if tx.NewSettings? && tx.uid in b.db.users {
      SettingsKeepToken(b.db.users[tx.uid], tx.req);
    }
  }

  lemma SettingsKeepToken(u: User, req: UpdateSettings)
    ensures SettingsInTable(u, req).accessToken == u.accessToken
  {
  }

  /** What one step leaves in the maps and hands on. */
  lemma StepKeepsIssued(db: Db, m: Mem, task: Task, x: Env, issued: map<string, ID>)
    requires CarriesIssued(task, issued) && CachedTokensOk(m.users, issued) && AcceptedOk(m.tokens, issued)
    ensures var f := Perform(db, m, task, x);
            && CachedTokensOk(f.mem.users, issued) && AcceptedOk(f.mem.tokens, issued)
            && (f.next.Some? ==> CarriesIssued(f.next.value,
               issued + (if f.tx.Some? then NewTokens(f.tx.value) else map[])))
  {
    if CreatesUser(task) {
      CreatingKeepsIssued(db, m, task, x, issued);
    } else if EntersGuards(task) {
      EnteringKeepsIssued(db, m, task, x, issued);
    } else {
      FollowingKeepsCached(db, m, task, x, issued);
      FollowingKeepsAccepted(db, m, task, x, issued);
      FollowingHandsOnIssued(db, m, task, x, issued);
      assert issued + map[] == issued;
    }
  }

  lemma MapsStillIssued(m: Mem, issued: map<string, ID>, issued': map<string, ID>)
    requires CachedTokensOk(m.users, issued) && AcceptedOk(m.tokens, issued)
    requires forall token | token in issued :: Belongs(issued', token, issued[token])
    ensures CachedTokensOk(m.users, issued') && AcceptedOk(m.tokens, issued')
  {
  }

  lemma IssuedAct(s: Server, t: ID, x: Env)
    requires IssuedOk(s) && Allowed(s, Act(t, x))
    ensures IssuedOk(Next(s, Act(t, x)))
  {
    hide Perform, Ledger.Commit, Ledger.Fresh, NewTokens, StoredTokensOk, CarriesIssued, CachedTokensOk, AcceptedOk;
    var f := Perform(s.books.db, s.mem, s.tasks[t], x);
    var issued' := s.issued + (if f.tx.Some? then NewTokens(f.tx.value) else map[]);
    StepKeepsIssued(s.books.db, s.mem, s.tasks[t], x, s.issued);
    assert forall token | token in s.issued :: Belongs(issued', token, s.issued[token]);
    MapsStillIssued(f.mem, s.issued, issued');
    if f.tx.Some? {
      CommitKeepsIssued(s.books, f.tx.value, s.issued);
    } else {
      assert issued' == s.issued;
    }
    forall o | o in s.tasks ensures CarriesIssued(s.tasks[o], issued') {
      StillIssued(s.tasks[o], s.issued, issued');
    }
  }

  lemma StillIssued(task: Task, issued: map<string, ID>, issued': map<string, ID>)
    requires CarriesIssued(task, issued) && forall token | token in issued :: Belongs(issued', token, issued[token])
    ensures CarriesIssued(task, issued')
  {
  }

  lemma IssuedCrash(s: Server, e: Move)
    requires IssuedOk(s) && e.Crash? && Allowed(s, e)
    ensures IssuedOk(Next(s, e))
  {
    forall u | u in e.loaded.users ensures Belongs(s.issued, e.loaded.users[u].user.accessToken, u) {
      assert IsLoaded(s.books.db, e.loaded.users[u]);
    }
  }

  lemma IssuedScan(s: Server, e: Move)
    requires IssuedOk(s) && e.ScanAll? && Allowed(s, e)
    ensures IssuedOk(Next(s, e))
  {
    hide Step, ToPersist;
    forall u | u in s.mem.users
      ensures Step(s.mem.users[u], Scan(e.now, e.clock(u))).user.accessToken == s.mem.users[u].user.accessToken
    {
      StepKeepsToken(s.mem.users[u], Scan(e.now, e.clock(u)));
    }
  }

  lemma IssuedNext(s: Server, e: Move)
    requires IssuedOk(s) && Allowed(s, e)
    ensures IssuedOk(Next(s, e))
  {
    match e
    case Act(t, x) => IssuedAct(s, t, x);
    case ScanAll(_, _, _, _) => IssuedScan(s, e);
    case Crash(_) => IssuedCrash(s, e);
    case Arrive(_, _) =>
  }

  lemma {:induction false} AlwaysIssued(es: seq<Move>)
    requires AllAllowed(COLD, es)
    ensures IssuedOk(After(COLD, es))
  {
    if es != [] {
      AlwaysIssued(es[..|es| - 1]);
      IssuedNext(After(COLD, es[..|es| - 1]), es[|es| - 1]);
    }
  }

  /** An access token, in the table or the map, belongs to one user only, and the token map names that user. */
  lemma {:induction false} TokensNameTheirUsers(es: seq<Move>)
    requires AllAllowed(COLD, es)
    ensures var s := After(COLD, es);
            && (forall u, v | u in s.mem.users && v in s.books.db.users && u != v ::
                  s.mem.users[u].user.accessToken != s.books.db.users[v].accessToken)
            && (forall u | u in s.mem.users && s.mem.users[u].user.accessToken in s.mem.tokens ::
                  s.mem.tokens[s.mem.users[u].user.accessToken] == u)
            && (forall v | v in s.books.db.users && s.books.db.users[v].accessToken in s.mem.tokens ::
                  s.mem.tokens[s.books.db.users[v].accessToken] == v)
  {
    AlwaysIssued(es);
  }
}
