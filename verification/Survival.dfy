/** What is left of the caches' agreement with the tables when requests interleave: nobody stored is missing from the
    map, and no unused invite from the list, unless a request on its way is about to enter them. */
module Survival {
  import opened Base
  import opened Models
  import opened Device
  import opened Memory
  import opened Tables
  import opened Registry
  import opened Concurrent
  import opened Issued
  import SoleAdmin
  import Ledger

  // ----- Users -----

  /** The request has stored this user and is yet to enter them in the map. */
  predicate Brings(task: Task, u: ID) {
    (task.Consuming? || task.AddingToken? || task.AddingUser?) && task.st.user.id == u
  }

  ghost predicate OnTheWay(tasks: map<ID, Task>, u: ID) {
    exists t | t in tasks :: Brings(tasks[t], u)
  }

  /** Whoever is to be dropped from the map is out of the table for good. */
  ghost predicate DropsAreDeleted(s: Server) {
    forall t | t in s.tasks && s.tasks[t].DroppingUser? ::
      s.tasks[t].target !in s.books.db.users && s.tasks[t].target in s.books.userIds
  }

  ghost predicate Present(s: Server) {
    && (forall u | u in s.books.db.users :: u in s.mem.users || OnTheWay(s.tasks, u))
    && DropsAreDeleted(s)
  }

  lemma StoredUsersAfter(b: Ledger.Books, tx: Ledger.Tx)
    ensures var b' := Ledger.Commit(b, tx);
            && b.userIds <= b'.userIds
            && (forall u | u in b'.db.users :: u in b.db.users || (tx.AddState? && u == tx.st.user.id))
            && (tx.RemoveUser? ==> tx.uid !in b'.db.users)
  {
    hide SettingsInTable, Insertable;
  }

  lemma BringsOn(db: Db, m: Mem, task: Task, x: Env, u: ID)
    ensures var f := Perform(db, m, task, x);
            && (Brings(task, u) ==> u in f.mem.users || (f.next.Some? && Brings(f.next.value, u)))
            && (f.tx.Some? && f.tx.value.AddState? ==> f.next.Some? && Brings(f.next.value, f.tx.value.st.user.id))
            && (f.next.Some? && f.next.value.DroppingUser? ==>
                  f.tx == Some(Ledger.RemoveUser(f.next.value.target)) && f.next.value.target in db.users)
  {
    hide UpdateSettingsRow, DeleteInvite, CreateInvite, UnusedOf, CreateState, Prepared, Step, Refused, Rejection;
    if CreatesUser(task) {
      hide Entering, Following;
    } else if EntersGuards(task) {
      hide Creating, Following;
    } else {
      hide Creating, Entering;
    }
  }

  lemma UserStaysPresent(s: Server, t: ID, x: Env, u: ID)
    requires Present(s) && Allowed(s, Act(t, x)) && u in Next(s, Act(t, x)).books.db.users
    ensures u in Next(s, Act(t, x)).mem.users || OnTheWay(Next(s, Act(t, x)).tasks, u)
  {
    hide Perform, Ledger.Commit, FreshDraw;
    var s' := Next(s, Act(t, x));
    var f := Perform(s.books.db, s.mem, s.tasks[t], x);
    if f.tx.Some? { StoredUsersAfter(s.books, f.tx.value); }
    BringsOn(s.books.db, s.mem, s.tasks[t], x, u);
    if u !in s.books.db.users {
      assert Brings(s'.tasks[t], u);
    } else if u in s.mem.users {
      SoleAdmin.UsersEffect(s.books.db, s.mem, s.tasks[t], x);
    } else {
      var o :| o in s.tasks && Brings(s.tasks[o], u);
      if o != t {
        assert Brings(s'.tasks[o], u);
      } else if u !in s'.mem.users {
        assert Brings(s'.tasks[t], u);
      }
    }
  }

  lemma DropsStayDeleted(s: Server, t: ID, x: Env)
    requires DropsAreDeleted(s) && Ledger.Rooted(s.books) && Allowed(s, Act(t, x))
    ensures DropsAreDeleted(Next(s, Act(t, x)))
  {
    hide Perform, Ledger.Commit;
    var f := Perform(s.books.db, s.mem, s.tasks[t], x);
    if f.tx.Some? { StoredUsersAfter(s.books, f.tx.value); }
    BringsOn(s.books.db, s.mem, s.tasks[t], x, 0);
  }

  lemma RootedBooks(b: Ledger.Books)
    requires Ledger.Balanced(b)
    ensures Ledger.Rooted(b)
  {
  }

  lemma PresentAct(s: Server, t: ID, x: Env)
    requires Present(s) && Ledger.Rooted(s.books) && Allowed(s, Act(t, x))
    ensures Present(Next(s, Act(t, x)))
  {
    DropsStayDeleted(s, t, x);
    hide Next, Allowed, OnTheWay, DropsAreDeleted, Ledger.Rooted;
    var s' := Next(s, Act(t, x));
    forall u | u in s'.books.db.users ensures u in s'.mem.users || OnTheWay(s'.tasks, u) {
      UserStaysPresent(s, t, x, u);
    }
  }

  lemma StillOnTheWay(tasks: map<ID, Task>, tasks': map<ID, Task>, u: ID)
    requires OnTheWay(tasks, u) && forall t | t in tasks :: t in tasks' && tasks'[t] == tasks[t]
    ensures OnTheWay(tasks', u)
  {
    var t :| t in tasks && Brings(tasks[t], u);
    assert Brings(tasks'[t], u);
  }

  lemma PresentNext(s: Server, e: Move)
    requires Present(s) && Ledger.Balanced(s.books) && SoleAdmin.OwnAccounts(s.books.db) && Allowed(s, e)
    ensures Present(Next(s, e))
  {
    hide Ledger.Balanced, Ledger.Rooted, SoleAdmin.OwnAccounts, ToPersist, Perform, Step, OnTheWay;
    RootedBooks(s.books);
    match e
    case Act(t, x) => PresentAct(s, t, x);
    case Crash(_) => SoleAdmin.EveryoneJoins(s.books.db);
    case _ =>
      forall u | u in s.books.db.users && OnTheWay(s.tasks, u) ensures OnTheWay(Next(s, e).tasks, u) {
        StillOnTheWay(s.tasks, Next(s, e).tasks, u);
      }
  }

  // ----- Invites -----

  /** Dropped ids are out of the table for good. */
  ghost predicate Gone(ids: set<ID>, invites: map<ID, Invite>, drawn: set<ID>) {
    ids <= drawn && forall i | i in ids :: i !in invites
  }

  /** What a request in the middle may take for granted about the invites it deals with. */
  ghost predicate CarriesInvite(task: Task, invites: map<ID, Invite>, drawn: set<ID>, issued: map<string, ID>) {
    match task
    case JoinFound(o, i) => o.invite.Some? && Belongs(issued, o.invite.value, i)
    case Consuming(_, token) =>
      token in issued && forall i | i in invites && invites[i].token == token :: invites[i].isUsed
    case Listing(inv) => Belongs(issued, inv.token, inv.id)
    case Unlisting(_, id) => Gone({id}, invites, drawn)
    case DeletingUser(target, ids) => ids <= drawn && forall i | i in ids
      && i in invites :: invites[i].ownerId == target
    case DroppingUser(_, ids) => Gone(ids, invites, drawn)
    case DroppingToken(_, ids) => Gone(ids, invites, drawn)
    case DroppingInvites(ids) => Gone(ids, invites, drawn)
    case _ => true
  }

  ghost predicate RowsIssued(invites: map<ID, Invite>, drawn: set<ID>, issued: map<string, ID>) {
    invites.Keys <= drawn && forall i | i in invites :: Belongs(issued, invites[i].token, i)
  }

  ghost predicate ListIssued(inviteTokens: map<string, ID>, issued: map<string, ID>) {
    forall token | token in inviteTokens :: Belongs(issued, token, inviteTokens[token])
  }

  /** The invite's row is in the list, or a request is about to put it there. */
  ghost predicate Listed(inviteTokens: map<string, ID>, tasks: map<ID, Task>, i: ID, token: string) {
    || Belongs(inviteTokens, token, i)
    || exists t | t in tasks :: tasks[t].Listing? && tasks[t].inv.id == i && tasks[t].inv.token == token
  }

  ghost predicate InvitesKnown(s: Server) {
    && RowsIssued(s.books.db.invites, s.books.inviteIds, s.issuedInvites)
    && ListIssued(s.mem.inviteTokens, s.issuedInvites)
    && (forall t | t in s.tasks :: CarriesInvite(s.tasks[t], s.books.db.invites, s.books.inviteIds, s.issuedInvites))
  }

  ghost predicate AllListed(s: Server) {
    forall i | i in s.books.db.invites && !s.books.db.invites[i].isUsed ::
      Listed(s.mem.inviteTokens, s.tasks, i, s.books.db.invites[i].token)
  }

  /** Rows keep their token and owner, a used one stays used, and a new one has a new id. */
  ghost predicate RowsGoOn(invites: map<ID, Invite>, invites': map<ID, Invite>, drawn: set<ID>, issued: map<string,
                           ID>) {
    forall i | i in invites' ::
      if i in invites
      then invites'[i].token == invites[i].token && invites'[i].ownerId == invites[i].ownerId
           && (invites[i].isUsed ==> invites'[i].isUsed)
      else i !in drawn && invites'[i].token !in issued
  }

  lemma RowsAfter(b: Ledger.Books, tx: Ledger.Tx, issued: map<string, ID>)
    requires Ledger.Fresh(b, tx) && forall token | token in NewInviteTokens(tx) :: token !in issued
    requires RowsIssued(b.db.invites, b.inviteIds, issued)
    ensures var b' := Ledger.Commit(b, tx);
            && RowsGoOn(b.db.invites, b'.db.invites, b.inviteIds, issued) && b.inviteIds <= b'.inviteIds
            && RowsIssued(b'.db.invites, b'.inviteIds, issued + NewInviteTokens(tx))
  {
    match tx
    case RemoveUser(uid) => RowsAfterRemoval(b, uid, issued);
    case AddInvite(_) =>
    case _ => RowsOnlyChange(b, tx, issued);
  }

  lemma RowsOnlyChange(b: Ledger.Books, tx: Ledger.Tx, issued: map<string, ID>)
    requires !tx.AddInvite? && !tx.RemoveUser?
    ensures var b' := Ledger.Commit(b, tx);
            && RowsGoOn(b.db.invites, b'.db.invites, b.inviteIds, issued) && b'.inviteIds == b.inviteIds
            && (forall i | i in b'.db.invites :: i in b.db.invites)
  {
    hide SettingsInTable, Insertable;
  }

  lemma RowsAfterRemoval(b: Ledger.Books, uid: ID, issued: map<string, ID>)
    ensures var b' := Ledger.Commit(b, Ledger.RemoveUser(uid));
            && RowsGoOn(b.db.invites, b'.db.invites, b.inviteIds, issued) && b'.inviteIds == b.inviteIds
            && (forall i | i in b'.db.invites :: i in b.db.invites)
            && (uid in b.db.users ==> forall i | i in b'.db.invites :: b'.db.invites[i].ownerId != uid)
  {
  }

  lemma CarriedInviteStays(task: Task, invites: map<ID, Invite>, drawn: set<ID>, issued: map<string, ID>,
                           invites': map<ID, Invite>, drawn': set<ID>, issued': map<string, ID>)
    requires CarriesInvite(task, invites, drawn, issued) && RowsGoOn(invites, invites', drawn, issued)
    requires drawn <= drawn' && forall token | token in issued :: Belongs(issued', token, issued[token])
    ensures CarriesInvite(task, invites', drawn', issued')
  {
  }

  /** A request of which nothing is assumed about invites. */
  predicate Free(task: Task) {
    !(task.JoinFound? || task.Consuming? || task.Listing? || task.Unlisting? || task.DeletingUser? || task.DroppingUser?
      || task.DroppingToken? || task.DroppingInvites?)
  }

  predicate HandsOn(task: Task) {
    task.JoinStart? || task.JoinFound? || task.StoringInvite? || task.Serving? || task.DeletingUser?
      || task.DroppingUser?
    || task.DroppingToken?
  }

  lemma OthersHandOnNothing(db: Db, m: Mem, task: Task, x: Env)
    requires !HandsOn(task)
    ensures var next := Perform(db, m, task, x).next; next.Some? ==> Free(next.value)
  {
    if CreatesUser(task) {
      hide Entering, Following, CreateState, Prepared;
    } else if EntersGuards(task) {
      hide Creating, Following, First;
    } else {
      hide Creating, Entering, DeleteUser, CreateInvite, OnDevice, DropInvites, HasInvite;
    }
  }

  lemma JoinHandsOn(b: Ledger.Books, m: Mem, task: Task, x: Env, issued: map<string, ID>)
    requires task.JoinStart? || task.JoinFound?
    requires CarriesInvite(task, b.db.invites, b.inviteIds, issued)
    requires RowsIssued(b.db.invites, b.inviteIds, issued) && ListIssued(m.inviteTokens, issued)
    requires var tx := Perform(b.db, m, task, x).tx; tx.Some? ==> Ledger.Fresh(b, tx.value)
    ensures var f := Perform(b.db, m, task, x);
            var b' := if f.tx.Some? then Ledger.Commit(b, f.tx.value) else b;
            f.next.Some? ==> CarriesInvite(f.next.value, b'.db.invites, b'.inviteIds, issued)
  {
    hide Entering, Following, Prepared, Insertable;
  }

  lemma InviteHandsOn(b: Ledger.Books, m: Mem, task: Task, x: Env, issued: map<string, ID>)
    requires task.StoringInvite?
    ensures var f := Perform(b.db, m, task, x);
            var issued' := issued + (if f.tx.Some? then NewInviteTokens(f.tx.value) else map[]);
            f.next.Some? ==> f.next.value.Listing? && Belongs(issued', f.next.value.inv.token, f.next.value.inv.id)
  {
  }

  lemma ServingHandsOn(b: Ledger.Books, m: Mem, task: Task, x: Env, issued: map<string, ID>)
    requires task.Serving? && RowsIssued(b.db.invites, b.inviteIds, issued)
    ensures var f := Perform(b.db, m, task, x);
            var b' := if f.tx.Some? then Ledger.Commit(b, f.tx.value) else b;
            f.next.Some? ==> CarriesInvite(f.next.value, b'.db.invites, b'.inviteIds, issued)
  {
    hide Creating, Following, UpdateSettingsRow, Step, Refused, Rejection, LanguageAccepted;
    if task.ask.AskDropInvite? { DeletedIsGone(b, task.ask.id, task.uid); }
  }

  lemma DeletedIsGone(b: Ledger.Books, id: ID, owner: ID)
    ensures var b' := Ledger.Commit(b, Ledger.RemoveInvite(id, owner));
            DeleteInvite(b.db, id, owner).1 > 0 ==>
              id in b.db.invites && id !in b'.db.invites && b'.inviteIds == b.inviteIds
  {
  }

  lemma DeletionHandsOn(b: Ledger.Books, m: Mem, task: Task, x: Env, issued: map<string, ID>)
    requires task.DeletingUser? || task.DroppingUser? || task.DroppingToken?
    requires CarriesInvite(task, b.db.invites, b.inviteIds, issued)
    ensures var f := Perform(b.db, m, task, x);
            var b' := if f.tx.Some? then Ledger.Commit(b, f.tx.value) else b;
            f.next.Some? ==> CarriesInvite(f.next.value, b'.db.invites, b'.inviteIds, issued)
  {
    hide Creating, Entering, Ledger.Commit;
    if task.DeletingUser? { RowsAfterRemoval(b, task.target, issued); }
  }

  /** What a step hands on about invites. */
  lemma NextCarriesInvite(b: Ledger.Books, m: Mem, task: Task, x: Env, issued: map<string, ID>)
    requires CarriesInvite(task, b.db.invites, b.inviteIds, issued)
    requires RowsIssued(b.db.invites, b.inviteIds, issued) && ListIssued(m.inviteTokens, issued)
    requires var tx := Perform(b.db, m, task, x).tx;
             tx.Some? ==>
               Ledger.Fresh(b, tx.value) && forall token | token in NewInviteTokens(tx.value) :: token !in issued
    ensures var f := Perform(b.db, m, task, x);
            var b' := if f.tx.Some? then Ledger.Commit(b, f.tx.value) else b;
            var issued' := issued + (if f.tx.Some? then NewInviteTokens(f.tx.value) else map[]);
            f.next.Some? ==> CarriesInvite(f.next.value, b'.db.invites, b'.inviteIds, issued')
  {
    var f := Perform(b.db, m, task, x);
    var b' := if f.tx.Some? then Ledger.Commit(b, f.tx.value) else b;
    if !HandsOn(task) {
      OthersHandOnNothing(b.db, m, task, x);
    } else if task.StoringInvite? {
      InviteHandsOn(b, m, task, x, issued);
    } else if task.JoinStart? || task.JoinFound? {
      JoinHandsOn(b, m, task, x, issued);
    } else if task.Serving? {
      ServingHandsOn(b, m, task, x, issued);
    } else {
      DeletionHandsOn(b, m, task, x, issued);
    }
    hide Perform, Ledger.Commit, NewInviteTokens, Ledger.Fresh;
    if f.next.Some? && CarriesInvite(f.next.value, b'.db.invites, b'.inviteIds, issued) {
      CarriedInviteStays(f.next.value, b'.db.invites, b'.inviteIds, issued, b'.db.invites, b'.inviteIds,
                         issued + (if f.tx.Some? then NewInviteTokens(f.tx.value) else map[]));
    }
  }

  /** Four kinds of steps write the list. */
  lemma ListAfter(db: Db, m: Mem, task: Task, x: Env)
    ensures Perform(db, m, task, x).mem.inviteTokens ==
            match task
            case Consuming(_, token) => m.inviteTokens - {token}
            case Listing(inv) => m.inviteTokens[inv.token := inv.id]
            case Unlisting(_, id) => DropInvites(m, {id}).inviteTokens
            case DroppingInvites(ids) => DropInvites(m, ids).inviteTokens
            case _ => m.inviteTokens
  {
    if CreatesUser(task) {
      hide Entering, Following, CreateState, Prepared;
    } else if EntersGuards(task) {
      hide Creating, Following, UpdateSettingsRow, DeleteInvite, UnusedOf, Step, Refused;
    } else {
      hide Creating, Entering, DeleteUser, CreateInvite, Step, HasInvite, DropInvites;
    }
  }

  lemma ListStaysIssued(db: Db, m: Mem, task: Task, x: Env, invites: map<ID, Invite>, drawn: set<ID>,
                        issued: map<string, ID>)
    requires ListIssued(m.inviteTokens, issued) && CarriesInvite(task, invites, drawn, issued)
    ensures ListIssued(Perform(db, m, task, x).mem.inviteTokens, issued)
  {
    ListAfter(db, m, task, x);
    hide Perform;
  }

  /** An unused invite leaves the list by no step. */
  lemma StaysInList(db: Db, m: Mem, task: Task, x: Env, drawn: set<ID>, issued: map<string, ID>, i: ID)
    requires RowsIssued(db.invites, drawn, issued) && CarriesInvite(task, db.invites, drawn, issued)
    requires Unused(db, i)
    requires Belongs(m.inviteTokens, db.invites[i].token, i)
             || (task.Listing? && task.inv.id == i && task.inv.token == db.invites[i].token)
    ensures Belongs(Perform(db, m, task, x).mem.inviteTokens, db.invites[i].token, i)
  {
    ListAfter(db, m, task, x);
    hide Perform;
  }

  lemma OnlyInvitesAreAdded(b: Ledger.Books, tx: Ledger.Tx, i: ID)
    requires i !in b.db.invites && i in Ledger.Commit(b, tx).db.invites
    ensures tx.AddInvite? && i == tx.inv.id && Ledger.Commit(b, tx).db.invites[i] == tx.inv
  {
    if !tx.AddInvite? {
      if tx.RemoveUser? {
        RowsAfterRemoval(b, tx.uid, map[]);
      } else {
        RowsOnlyChange(b, tx, map[]);
      }
    }
  }

  lemma AddedIsListed(db: Db, m: Mem, task: Task, x: Env)
    ensures var f := Perform(db, m, task, x);
            f.tx.Some? && f.tx.value.AddInvite? ==> f.next == Some(Listing(f.tx.value.inv))
  {
    hide UpdateSettingsRow, DeleteUser, DeleteInvite, CreateInvite, UnusedOf, CreateState, Prepared, Step, Refused,
      Rejection;
    if CreatesUser(task) {
      hide Entering, Following;
    } else if EntersGuards(task) {
      hide Creating, Following;
    } else {
      hide Creating, Entering;
    }
  }

  lemma NewRowIsListed(s: Server, t: ID, x: Env, i: ID)
    requires Allowed(s, Act(t, x)) && Unused(Next(s, Act(t, x)).books.db, i) && i !in s.books.db.invites
    ensures var s' := Next(s, Act(t, x)); Listed(s'.mem.inviteTokens, s'.tasks, i, s'.books.db.invites[i].token)
  {
    hide Perform, Ledger.Commit, FreshDraw;
    var s' := Next(s, Act(t, x));
    var f := Perform(s.books.db, s.mem, s.tasks[t], x);
    if f.tx.Some? {
      OnlyInvitesAreAdded(s.books, f.tx.value, i);
      AddedIsListed(s.books.db, s.mem, s.tasks[t], x);
      assert s'.tasks[t] == f.next.value;
    }
  }

  lemma OldRowIsListed(s: Server, t: ID, x: Env, i: ID, token: string)
    requires InvitesKnown(s) && Allowed(s, Act(t, x)) && Unused(s.books.db, i)
    requires token == s.books.db.invites[i].token && Listed(s.mem.inviteTokens, s.tasks, i, token)
    ensures var s' := Next(s, Act(t, x)); Listed(s'.mem.inviteTokens, s'.tasks, i, token)
  {
    hide Perform, Ledger.Commit, FreshDraw, CarriesInvite, RowsIssued;
    var s' := Next(s, Act(t, x));
    if Belongs(s.mem.inviteTokens, token, i) {
      StaysInList(s.books.db, s.mem, s.tasks[t], x, s.books.inviteIds, s.issuedInvites, i);
    } else {
      var o :| o in s.tasks && s.tasks[o].Listing? && s.tasks[o].inv.id == i && s.tasks[o].inv.token == token;
      if o == t {
        StaysInList(s.books.db, s.mem, s.tasks[t], x, s.books.inviteIds, s.issuedInvites, i);
      } else {
        assert s'.tasks[o] == s.tasks[o];
      }
    }
  }

  lemma ListedAct(s: Server, t: ID, x: Env, i: ID)
    requires InvitesKnown(s) && AllListed(s) && Allowed(s, Act(t, x)) && Unused(Next(s, Act(t, x)).books.db, i)
    ensures var s' := Next(s, Act(t, x)); Listed(s'.mem.inviteTokens, s'.tasks, i, s'.books.db.invites[i].token)
  {
    hide Perform, Ledger.Commit, CarriesInvite, RowsIssued, Listed;
    var f := Perform(s.books.db, s.mem, s.tasks[t], x);
    if i !in s.books.db.invites {
      NewRowIsListed(s, t, x, i);
    } else {
      if f.tx.Some? { RowsAfter(s.books, f.tx.value, s.issuedInvites); }
      OldRowIsListed(s, t, x, i, s.books.db.invites[i].token);
    }
  }

  lemma KnownAct(s: Server, t: ID, x: Env)
    requires InvitesKnown(s) && Allowed(s, Act(t, x))
    ensures InvitesKnown(Next(s, Act(t, x)))
  {
    var s' := Next(s, Act(t, x));
    var f := Perform(s.books.db, s.mem, s.tasks[t], x);
    hide Perform, Ledger.Commit, CarriesInvite, RowsIssued, ListIssued, Ledger.Fresh, NewInviteTokens;
    ListStaysIssued(s.books.db, s.mem, s.tasks[t], x, s.books.db.invites, s.books.inviteIds, s.issuedInvites);
    NextCarriesInvite(s.books, s.mem, s.tasks[t], x, s.issuedInvites);
    if f.tx.Some? { RowsAfter(s.books, f.tx.value, s.issuedInvites); }
    MoreIssued(f.mem.inviteTokens, s.issuedInvites, s'.issuedInvites);
    forall o | o in s.tasks && o != t
      ensures CarriesInvite(s.tasks[o], s'.books.db.invites, s'.books.inviteIds, s'.issuedInvites)
    {
      CarriedInviteStays(s.tasks[o], s.books.db.invites, s.books.inviteIds, s.issuedInvites,
                         s'.books.db.invites, s'.books.inviteIds, s'.issuedInvites);
    }
  }

  lemma MoreIssued(inviteTokens: map<string, ID>, issued: map<string, ID>, issued': map<string, ID>)
    requires ListIssued(inviteTokens, issued) && forall token | token in issued ::
             Belongs(issued', token, issued[token])
    ensures ListIssued(inviteTokens, issued')
  {
  }

  lemma CrashKnown(s: Server, e: Move)
    requires InvitesKnown(s) && e.Crash? && Allowed(s, e)
    ensures InvitesKnown(Next(s, e)) && AllListed(Next(s, e))
  {
    hide IsLoaded, JoinedUsers;
    forall token | token in e.loaded.inviteTokens
      ensures Belongs(s.issuedInvites, token, e.loaded.inviteTokens[token]) {
      assert s.books.db.invites[e.loaded.inviteTokens[token]].token == token;
    }
    forall i | i in s.books.db.invites && !s.books.db.invites[i].isUsed
      ensures Belongs(e.loaded.inviteTokens, s.books.db.invites[i].token, i)
    {
      assert s.books.db.invites[i].token in e.loaded.inviteTokens;
    }
  }

  lemma InvitesNext(s: Server, e: Move)
    requires InvitesKnown(s) && AllListed(s) && Allowed(s, e)
    ensures InvitesKnown(Next(s, e)) && AllListed(Next(s, e))
  {
    match e
    case Act(t, x) =>
      KnownAct(s, t, x);
      hide Next, Allowed, InvitesKnown, Listed;
      forall i | Unused(Next(s, e).books.db, i)
        ensures Listed(Next(s, e).mem.inviteTokens, Next(s, e).tasks, i, Next(s, e).books.db.invites[i].token)
      {
        ListedAct(s, t, x, i);
      }
    case Crash(_) => CrashKnown(s, e);
    case _ =>
      hide RowsIssued, ListIssued, ToPersist;
      forall i | Unused(s.books.db, i) ensures Listed(s.mem.inviteTokens, Next(s, e).tasks, i,
        s.books.db.invites[i].token) {
        if !Belongs(s.mem.inviteTokens, s.books.db.invites[i].token, i) {
          var o :| o in s.tasks && s.tasks[o].Listing? && s.tasks[o].inv.id == i
                   && s.tasks[o].inv.token == s.books.db.invites[i].token;
          assert Next(s, e).tasks[o] == s.tasks[o];
        }
      }
  }

  // ----- The results -----

  lemma {:induction false} AlwaysCarried(es: seq<Move>)
    requires AllAllowed(COLD, es)
    ensures var s := After(COLD, es); Present(s) && InvitesKnown(s) && AllListed(s)
  {
    if es != [] {
      var before := es[..|es| - 1];
      var s, e := After(COLD, before), es[|es| - 1];
      AlwaysCarried(before);
      SoleAdmin.AlwaysOrderly(before);
      SoleAdmin.BooksBalanceConcurrently(before);
      hide Present, InvitesKnown, AllListed, Next, Allowed, Ledger.Balanced, SoleAdmin.OwnAccounts;
      PresentNext(s, e);
      InvitesNext(s, e);
    }
  }

  /** Under any interleaving, failures and restarts included: every stored user is in the map, or the request that
      stored them is yet to put them there; every unused invite is in the list, or the request that made it is yet
      to; and no invite is listed under the token of another. */
  lemma {:induction false} NobodyIsMissing(es: seq<Move>)
    requires AllAllowed(COLD, es)
    ensures var s := After(COLD, es);
            && (forall u | u in s.books.db.users ::
                  u in s.mem.users || exists t | t in s.tasks :: Brings(s.tasks[t], u))
            && (forall i | Unused(s.books.db, i) ::
                  Listed(s.mem.inviteTokens, s.tasks, i, s.books.db.invites[i].token))
            && (forall i | i in s.books.db.invites && s.books.db.invites[i].token in s.mem.inviteTokens ::
                  s.mem.inviteTokens[s.books.db.invites[i].token] == i)
  {
    AlwaysCarried(es);
  }

  /** So with no request in the middle of anything, nobody and nothing is missing. */
  lemma {:induction false} NothingIsMissingAtRest(es: seq<Move>)
    requires AllAllowed(COLD, es) && After(COLD, es).tasks == map[]
    ensures var s := After(COLD, es);
            && s.books.db.users.Keys <= s.mem.users.Keys
            && (forall i | Unused(s.books.db, i) :: Belongs(s.mem.inviteTokens, s.books.db.invites[i].token, i))
  {
    NobodyIsMissing(es);
  }
}
