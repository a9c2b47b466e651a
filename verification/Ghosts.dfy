/** When the map holds somebody the table does not: a user deleted while the request that stored them is yet to enter
    them in the map comes in afterwards, and stays until a restart. */
module Ghosts {
  import opened Base
  import opened Models
  import opened Device
  import opened Memory
  import opened Tables
  import opened Registry
  import opened Concurrent
  import opened Survival
  import SoleAdmin
  import Ledger

  predicate Drops(task: Task, u: ID) {
    task.DroppingUser? && task.target == u
  }

  /** The user is out of the table for good, and nobody is about to enter them in the map. */
  ghost predicate Gone(s: Server, u: ID) {
    u !in s.books.db.users && u in s.books.userIds && !OnTheWay(s.tasks, u)
  }

  /** The user is out of the map, or a request is about to take them out. */
  ghost predicate Leaving(s: Server, u: ID) {
    u in s.mem.users ==> exists t | t in s.tasks :: Drops(s.tasks[t], u)
  }

  lemma BringsBefore(db: Db, m: Mem, task: Task, x: Env, u: ID)
    ensures var f := Perform(db, m, task, x);
            f.next.Some? && Brings(f.next.value, u) ==>
              Brings(task, u) || (f.tx.Some? && f.tx.value.AddState? && f.tx.value.st.user.id == u)
  {
    if CreatesUser(task) {
      hide Entering, Following, CreateState, Prepared;
    } else if EntersGuards(task) {
      hide Creating, Following, Step, Refused, DeleteInvite, UpdateSettingsRow, UnusedOf;
    } else {
      hide Creating, Entering, DeleteUser, CreateInvite, OnDevice, DropInvites, HasInvite;
    }
  }

  lemma GoneAct(s: Server, t: ID, x: Env, u: ID)
    requires Gone(s, u) && Allowed(s, Act(t, x))
    ensures Gone(Next(s, Act(t, x)), u)
  {
    hide Perform, Ledger.Commit;
    var s' := Next(s, Act(t, x));
    var f := Perform(s.books.db, s.mem, s.tasks[t], x);
    BringsBefore(s.books.db, s.mem, s.tasks[t], x, u);
    if f.tx.Some? { StoredUsersAfter(s.books, f.tx.value); }
    forall o | o in s'.tasks ensures !Brings(s'.tasks[o], u) {
      if o != t { assert !Brings(s.tasks[o], u); }
    }
  }

  lemma GoneNext(s: Server, e: Move, u: ID)
    requires Gone(s, u) && Allowed(s, e)
    ensures Gone(Next(s, e), u)
  {
    match e
    case Act(t, x) => GoneAct(s, t, x, u);
    case _ => hide ToPersist, IsLoadOf;
  }

  lemma LeavingAct(s: Server, t: ID, x: Env, u: ID)
    requires Gone(s, u) && Leaving(s, u) && Allowed(s, Act(t, x))
    ensures Leaving(Next(s, Act(t, x)), u)
  {
    SoleAdmin.UsersEffect(s.books.db, s.mem, s.tasks[t], x);
    DropTakesOut(s.books.db, s.mem, s.tasks[t], x);
    hide Perform, Ledger.Commit, FreshDraw;
    var s' := Next(s, Act(t, x));
    if u in s'.mem.users {
      assert !Brings(s.tasks[t], u);
      assert u in s.mem.users;
      var o :| o in s.tasks && Drops(s.tasks[o], u);
      assert Drops(s'.tasks[o], u);
    }
  }

  lemma DropTakesOut(db: Db, m: Mem, task: Task, x: Env)
    ensures task.DroppingUser? ==> task.target !in Perform(db, m, task, x).mem.users
  {
    hide Creating, Entering;
  }

  lemma LeavingNext(s: Server, e: Move, u: ID)
    requires Gone(s, u) && Leaving(s, u) && Allowed(s, e)
    ensures Leaving(Next(s, e), u)
  {
    match e
    case Act(t, x) => LeavingAct(s, t, x, u);
    case Crash(_) => hide IsLoaded;
    case _ =>
      hide ToPersist;
      var s' := Next(s, e);
      if u in s'.mem.users {
        var o :| o in s.tasks && Drops(s.tasks[o], u);
        assert Drops(s'.tasks[o], u);
      }
  }

  lemma {:induction false} StaysLeaving(s: Server, es: seq<Move>, u: ID)
    requires Gone(s, u) && Leaving(s, u) && AllAllowed(s, es)
    ensures Gone(After(s, es), u) && Leaving(After(s, es), u)
  {
    hide Gone, Leaving, Next, Allowed;
    if es != [] {
      StaysLeaving(s, es[..|es| - 1], u);
      GoneNext(After(s, es[..|es| - 1]), es[|es| - 1], u);
      LeavingNext(After(s, es[..|es| - 1]), es[|es| - 1], u);
    }
  }

  // ----- Bringing a user in -----

  function Left(task: Task): nat {
    match task
    case Consuming(_, _) => 3
    case AddingToken(_, _) => 2
    case AddingUser(_, _) => 1
    case _ => 0
  }

  lemma BringStep(s: Server, o: ID, x: Env, u: ID)
    requires o in s.tasks && Brings(s.tasks[o], u)
    ensures var s' := Next(s, Act(o, x));
            && Allowed(s, Act(o, x))
            && (if s.tasks[o].AddingUser? then u in s'.mem.users && s'.tasks == s.tasks - {o}
                else o in s'.tasks && Brings(s'.tasks[o], u) && Left(s'.tasks[o]) < Left(s.tasks[o])
                     && s'.tasks == s.tasks[o := s'.tasks[o]])
  {
    hide Entering, Following;
  }

  /** The moves lead from one state to the other. */
  ghost predicate Leads(s: Server, es: seq<Move>, s': Server) {
    AllAllowed(s, es) && After(s, es) == s'
  }

  lemma LeadsOn(s0: Server, es: seq<Move>, s: Server, e: Move)
    requires Leads(s0, es, s) && Allowed(s, e)
    ensures Leads(s0, es + [e], Next(s, e))
  {
    hide Next, Allowed;
    OneMoreMove(s0, es, e);
  }

  /** The request can go on at once until the user is in the map. */
  lemma {:induction false} BringIn(s0: Server, es: seq<Move>, s: Server, o: ID, x: Env, u: ID)
    returns (es': seq<Move>, s': Server)
    requires Leads(s0, es, s) && o in s.tasks && Brings(s.tasks[o], u)
    ensures Leads(s0, es', s') && u in s'.mem.users && s'.tasks == s.tasks - {o}
    decreases Left(s.tasks[o])
  {
    hide Next, Allowed, Leads, Brings;
    BringStep(s, o, x, u);
    LeadsOn(s0, es, s, Act(o, x));
    var s1 := Next(s, Act(o, x));
    if s.tasks[o].AddingUser? {
      es', s' := es + [Act(o, x)], s1;
    } else {
      es', s' := BringIn(s0, es + [Act(o, x)], s1, o, x, u);
      assert s1.tasks - {o} == s.tasks - {o};
    }
  }

  function Bringers(tasks: map<ID, Task>, u: ID): set<ID> {
    set t | t in tasks && Brings(tasks[t], u)
  }

  lemma OneLessBringer(tasks: map<ID, Task>, u: ID, o: ID)
    requires o in Bringers(tasks, u)
    ensures Bringers(tasks - {o}, u) == Bringers(tasks, u) - {o}
    ensures (tasks - {o}) - Bringers(tasks - {o}, u) == tasks - Bringers(tasks, u)
  {
  }

  lemma {:induction false} BringAllIn(s0: Server, es: seq<Move>, s: Server, x: Env, u: ID)
    returns (es': seq<Move>, s': Server)
    requires Leads(s0, es, s) && Bringers(s.tasks, u) != {}
    ensures Leads(s0, es', s') && u in s'.mem.users && s'.tasks == s.tasks - Bringers(s.tasks, u)
    decreases |Bringers(s.tasks, u)|
  {
    hide Next, Allowed, Leads;
    var o :| o in Bringers(s.tasks, u);
    OneLessBringer(s.tasks, u, o);
    es', s' := BringIn(s0, es, s, o, x, u);
    if Bringers(s'.tasks, u) != {} {
      es', s' := BringAllIn(s0, es', s', x, u);
    } else {
      assert s'.tasks - {} == s'.tasks;
    }
  }

  // ----- The guard -----

  /** A request is about to enter the user in the map, or to take them out. */
  ghost predicate Concerned(tasks: map<ID, Task>, u: ID) {
    exists t | t in tasks :: Brings(tasks[t], u) || Drops(tasks[t], u)
  }

  /** However the run goes on, once no request concerns the user any more they are not in the map. */
  ghost predicate StaysGone(s: Server, u: ID) {
    forall es: seq<Move> | AllAllowed(s, es) && !Concerned(After(s, es).tasks, u) :: u !in After(s, es).mem.users
  }

  /** The deletion commits. */
  predicate Deletes(s: Server, e: Move, u: ID) {
    && e.Act? && e.t in s.tasks && s.tasks[e.t].DeletingUser? && s.tasks[e.t].target == u && !e.x.fails
    && u in s.books.db.users
  }

  lemma DeletionEffect(s: Server, e: Move, u: ID)
    requires Deletes(s, e, u)
    ensures var s' := Next(s, e);
            && Allowed(s, e) && s'.mem == s.mem && s'.books.userIds == s.books.userIds && u !in s'.books.db.users
            && s'.tasks == s.tasks[e.t := DroppingUser(u, s.tasks[e.t].ids)]
  {
    hide Creating, Entering;
  }

  lemma CleanDeletion(s: Server, e: Move, u: ID)
    requires Deletes(s, e, u) && u in s.books.userIds && !OnTheWay(s.tasks, u)
    ensures StaysGone(Next(s, e), u)
  {
    DeletionEffect(s, e, u);
    hide Next, Allowed, After, AllAllowed;
    var s1 := Next(s, e);
    assert Drops(s1.tasks[e.t], u);
    forall o | o in s1.tasks ensures !Brings(s1.tasks[o], u) {
      if o != e.t { assert !Brings(s.tasks[o], u); }
    }
    forall es: seq<Move> | AllAllowed(s1, es) && !Concerned(After(s1, es).tasks, u)
      ensures u !in After(s1, es).mem.users {
      StaysLeaving(s1, es, u);
    }
  }

  lemma DropStep(s: Server, t: ID, x: Env, u: ID, ids: set<ID>)
    requires t in s.tasks && s.tasks[t] == DroppingUser(u, ids)
    ensures var s' := Next(s, Act(t, x));
            && Allowed(s, Act(t, x)) && t in s'.tasks && !Drops(s'.tasks[t], u) && !Brings(s'.tasks[t], u)
            && s'.tasks == s.tasks[t := s'.tasks[t]]
  {
    hide Creating, Entering;
  }

  /** Let the deletion take the user out of the map first, and the joiner come in then. */
  lemma HauntedDeletion(s: Server, e: Move, u: ID)
    requires Deletes(s, e, u) && DropsAreDeleted(s) && OnTheWay(s.tasks, u)
    ensures !StaysGone(Next(s, e), u)
  {
    hide Next, Allowed, After, AllAllowed;
    DeletionEffect(s, e, u);
    var s1 := Next(s, e);
    DropStep(s1, e.t, e.x, u, s.tasks[e.t].ids);
    NoMoves(s1);
    LeadsOn(s1, [], s1, Act(e.t, e.x));
    var s2 := Next(s1, Act(e.t, e.x));
    var o :| o in s.tasks && Brings(s.tasks[o], u);
    assert o in Bringers(s2.tasks, u);
    var es, s3 := BringAllIn(s1, [] + [Act(e.t, e.x)], s2, e.x, u);
    forall t | t in s3.tasks ensures !Brings(s3.tasks[t], u) && !Drops(s3.tasks[t], u) {
      assert t !in Bringers(s2.tasks, u);
      if t != e.t { assert s3.tasks[t] == s.tasks[t] && !Drops(s.tasks[t], u); }
    }
    assert !Concerned(After(s1, es).tasks, u);
  }

  /** At the commit of a deletion, in any reachable state: no request is about to enter the user in the map, if and only
      if, however the run goes on, they are not in the map as soon as no request concerns them. */
  lemma {:induction false} DeletionIsCleanIffNotOnTheWay(prior: seq<Move>, e: Move, u: ID)
    requires AllAllowed(COLD, prior) && Deletes(After(COLD, prior), e, u)
    ensures var s := After(COLD, prior); !OnTheWay(s.tasks, u) <==> StaysGone(Next(s, e), u)
  {
    hide After, AllAllowed, Next, Allowed, StaysGone, OnTheWay, Ledger.Balanced, InvitesKnown, AllListed;
    var s := After(COLD, prior);
    AlwaysCarried(prior);
    SoleAdmin.BooksBalanceConcurrently(prior);
    RootedBooks(s.books);
    if OnTheWay(s.tasks, u) {
      HauntedDeletion(s, e, u);
    } else {
      CleanDeletion(s, e, u);
    }
  }

  // ----- Runs without ghosts -----

  /** Users are deleted only when no request is about to enter them in the map. */
  ghost predicate DeletionsGuarded(s: Server, es: seq<Move>) {
    es == []
    || (var before, e := es[..|es| - 1], es[|es| - 1];
        && DeletionsGuarded(s, before)
        && forall u | Deletes(After(s, before), e, u) :: !OnTheWay(After(s, before).tasks, u))
  }

  /** Whoever is in the map is stored or about to be taken out, and whoever is about to enter is stored. */
  ghost predicate NoGhosts(s: Server) {
    && (forall u | u in s.mem.users && u !in s.books.db.users :: exists t | t in s.tasks :: Drops(s.tasks[t], u))
    && (forall u | OnTheWay(s.tasks, u) :: u in s.books.db.users)
  }

  lemma StoredUsersStay(b: Ledger.Books, tx: Ledger.Tx, u: ID)
    requires u in b.db.users && SoleAdmin.OwnAccounts(b.db)
    ensures u in Ledger.Commit(b, tx).db.users || tx == Ledger.RemoveUser(u)
  {
    hide SoleAdmin.OwnAccounts, SettingsInTable, Insertable;
    if tx.RemoveUser? && tx.uid in b.db.users { SoleAdmin.OnlyTheTargetGoes(b.db, tx.uid); }
  }

  lemma RemovalIsDeletion(db: Db, m: Mem, task: Task, x: Env, u: ID)
    ensures Perform(db, m, task, x).tx == Some(Ledger.RemoveUser(u)) ==>
              && task.DeletingUser? && task.target == u && !x.fails && u in db.users
              && Perform(db, m, task, x).next == Some(DroppingUser(u, task.ids))
  {
    if CreatesUser(task) {
      hide Entering, Following, CreateState, Prepared;
    } else if EntersGuards(task) {
      hide Creating, Following, Step, Refused, DeleteInvite, UpdateSettingsRow, UnusedOf;
    } else {
      hide Creating, Entering, CreateInvite, OnDevice, DropInvites, HasInvite, DropUsers;
    }
  }

  lemma AddedIsStored(b: Ledger.Books, m: Mem, task: Task, x: Env)
    ensures var f := Perform(b.db, m, task, x);
            f.tx.Some? && f.tx.value.AddState? ==> f.tx.value.st.user.id in Ledger.Commit(b, f.tx.value).db.users
  {
    SoleAdmin.StoringStep(b.db, m, task, x);
    if CreatesUser(task) {
      hide Entering, Following, Prepared, Insertable;
    } else {
      hide Perform, Ledger.Commit;
    }
  }

  /** A stored user stays stored, or is deleted by this very step. */
  lemma StoredAfter(s: Server, t: ID, x: Env, u: ID)
    requires SoleAdmin.OwnAccounts(s.books.db) && Allowed(s, Act(t, x)) && u in s.books.db.users
    ensures var s' := Next(s, Act(t, x));
            || u in s'.books.db.users
            || (Deletes(s, Act(t, x), u) && t in s'.tasks && Drops(s'.tasks[t], u))
  {
    hide Perform, Ledger.Commit, SoleAdmin.OwnAccounts, FreshDraw;
    var f := Perform(s.books.db, s.mem, s.tasks[t], x);
    if f.tx.Some? {
      StoredUsersStay(s.books, f.tx.value, u);
      RemovalIsDeletion(s.books.db, s.mem, s.tasks[t], x, u);
    }
  }

  lemma BringersAreStored(s: Server, t: ID, x: Env, u: ID)
    requires NoGhosts(s) && SoleAdmin.OwnAccounts(s.books.db) && Allowed(s, Act(t, x))
    requires Deletes(s, Act(t, x), u) ==> !OnTheWay(s.tasks, u)
    requires OnTheWay(Next(s, Act(t, x)).tasks, u)
    ensures u in Next(s, Act(t, x)).books.db.users
  {
    hide Perform, Ledger.Commit, SoleAdmin.OwnAccounts, FreshDraw;
    var s' := Next(s, Act(t, x));
    var o :| o in s'.tasks && Brings(s'.tasks[o], u);
    BringsBefore(s.books.db, s.mem, s.tasks[t], x, u);
    AddedIsStored(s.books, s.mem, s.tasks[t], x);
    if o != t {
      assert Brings(s.tasks[o], u);
      StoredAfter(s, t, x, u);
    } else if Brings(s.tasks[t], u) {
      StoredAfter(s, t, x, u);
    }
  }

  lemma CachedAreStored(s: Server, t: ID, x: Env, u: ID)
    requires NoGhosts(s) && SoleAdmin.OwnAccounts(s.books.db) && Allowed(s, Act(t, x))
    requires Deletes(s, Act(t, x), u) ==> !OnTheWay(s.tasks, u)
    requires u in Next(s, Act(t, x)).mem.users
    ensures var s' := Next(s, Act(t, x)); u in s'.books.db.users || exists o | o in s'.tasks :: Drops(s'.tasks[o], u)
  {
    SoleAdmin.UsersEffect(s.books.db, s.mem, s.tasks[t], x);
    DropTakesOut(s.books.db, s.mem, s.tasks[t], x);
    hide Perform, Ledger.Commit, SoleAdmin.OwnAccounts, FreshDraw;
    var s' := Next(s, Act(t, x));
    if u !in s.mem.users {
      assert Brings(s.tasks[t], u);
    }
    if u in s.books.db.users {
      StoredAfter(s, t, x, u);
    } else {
      var o :| o in s.tasks && Drops(s.tasks[o], u);
      assert Drops(s'.tasks[o], u);
    }
  }

  lemma NoGhostsNext(s: Server, e: Move)
    requires NoGhosts(s) && SoleAdmin.OwnAccounts(s.books.db) && Allowed(s, e)
    requires forall u | Deletes(s, e, u) :: !OnTheWay(s.tasks, u)
    ensures NoGhosts(Next(s, e))
  {
    var s' := Next(s, e);
    match e
    case Act(t, x) =>
      hide Next, Allowed, SoleAdmin.OwnAccounts, OnTheWay, Deletes;
      forall u | u in s'.mem.users && u !in s'.books.db.users
        ensures exists o | o in s'.tasks :: Drops(s'.tasks[o], u) {
        CachedAreStored(s, t, x, u);
      }
      forall u | OnTheWay(s'.tasks, u) ensures u in s'.books.db.users {
        BringersAreStored(s, t, x, u);
      }
    case Crash(_) => hide SoleAdmin.OwnAccounts, IsLoaded;
    case _ =>
      hide ToPersist, SoleAdmin.OwnAccounts;
      forall u | u in s'.mem.users && u !in s'.books.db.users
        ensures exists o | o in s'.tasks :: Drops(s'.tasks[o], u) {
        var o :| o in s.tasks && Drops(s.tasks[o], u);
        assert Drops(s'.tasks[o], u);
      }
      forall u | OnTheWay(s'.tasks, u) ensures u in s'.books.db.users {
        var o :| o in s'.tasks && Brings(s'.tasks[o], u);
        assert Brings(s.tasks[o], u);
      }
  }

  lemma {:induction false} GuardedRunHasNoGhosts(es: seq<Move>)
    requires AllAllowed(COLD, es) && DeletionsGuarded(COLD, es)
    ensures NoGhosts(After(COLD, es))
  {
    if es != [] {
      var before, e := es[..|es| - 1], es[|es| - 1];
      GuardedRunHasNoGhosts(before);
      SoleAdmin.AlwaysOrderly(before);
      hide Next, Allowed, NoGhosts, Deletes, OnTheWay, SoleAdmin.OwnAccounts;
      NoGhostsNext(After(COLD, before), e);
    }
  }

  /** In a run whose deletions are guarded, whenever no request is in the middle of anything, exactly the stored users
      are in the map. */
  lemma {:induction false} NobodyButStoredUsers(es: seq<Move>)
    requires AllAllowed(COLD, es) && DeletionsGuarded(COLD, es) && After(COLD, es).tasks == map[]
    ensures var s := After(COLD, es); s.mem.users.Keys == s.books.db.users.Keys
  {
    GuardedRunHasNoGhosts(es);
    NothingIsMissingAtRest(es);
  }
}
