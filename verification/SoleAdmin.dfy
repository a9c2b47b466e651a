/** At most one administrator, under any interleaving and across restarts.

    The argument: `init_lock` is held from the look at the empty map until the admin is in it, the admin stands in
    the table before the map can lose that fact, and whoever acts as an admin has been seen in the map as one. */
module SoleAdmin {
  import opened Base
  import opened Uptime
  import opened Models
  import opened Device
  import opened Memory
  import opened Tables
  import opened Registry
  import opened Concurrent
  import opened Ledger

  // ----- The tables -----

  ghost predicate TablesOk(b: Books, admins: set<ID>) {
    && (forall u | u in b.db.users :: b.db.users[u].userType == Admin <==> u in admins)
    && admins <= b.db.users.Keys
    && (forall u, v | u in admins && v in admins :: u == v)
    && (forall i | i in b.db.invites :: b.db.invites[i].ownerId in admins)
    && (forall k | 0 <= k < |b.uses| :: b.uses[k].owner in admins)
    && |b.userIds| == |admins| + |b.uses|
  }

  /** What a transaction must respect to keep one admin. */
  predicate Lawful(b: Books, admins: set<ID>, tx: Tx) {
    match tx
    case AddState(st, None) => admins == {} && b.db.users == map[] && st.user.userType == Admin && Fresh(b, tx)
    case AddState(st, Some(i)) => st.user.userType == Normal && Fresh(b, tx) && Unused(b.db, i)
    case AddInvite(inv) => inv.ownerId in admins
    case RemoveUser(uid) => uid !in admins
    case _ => true
  }

  /** Every user can be loaded, and no two share an ntfy row. */
  ghost predicate OwnAccounts(db: Db) {
    && (forall u | u in db.users :: db.users[u].ntfyId in db.ntfy && HasUptime(db, u))
    && (forall u, v | u in db.users && v in db.users && u != v :: db.users[u].ntfyId != db.users[v].ntfyId)
  }

  predicate Wired(tx: Tx) {
    tx.AddState? ==> tx.st.user.ntfyId == tx.st.ntfy.id && tx.st.uptime.userId == tx.st.user.id
  }

  /** A deletion takes nobody else along. */
  lemma OnlyTheTargetGoes(db: Db, uid: ID)
    requires OwnAccounts(db) && uid in db.users
    ensures DeleteUser(db, uid) == Ok(DropUsers(db, {uid}).(ntfy := db.ntfy - {db.users[uid].ntfyId}))
  {
    var without := DropUsers(db, {uid});
    assert Referencing(without, db.users[uid].ntfyId) == {};
    DropNobody(without);
  }

  lemma InsertedAccounts(db: Db, st: UserState)
    requires OwnAccounts(db) && Insertable(db, st) && st.user.ntfyId == st.ntfy.id && st.uptime.userId == st.user.id
    ensures OwnAccounts(InsertState(db, st))
  {
    var db' := InsertState(db, st);
    forall u | u in db'.users ensures HasUptime(db', u) {
      if u == st.user.id {
        assert db'.uptimes[st.uptime.id].userId == u;
      } else {
        var r :| r in db.uptimes && db.uptimes[r].userId == u;
        assert db'.uptimes[r].userId == u;
      }
    }
  }

  lemma RemovedAccounts(db: Db, uid: ID)
    requires OwnAccounts(db) && uid in db.users
    ensures OwnAccounts(DeleteUser(db, uid).value)
  {
    OnlyTheTargetGoes(db, uid);
    var db' := DeleteUser(db, uid).value;
    forall u | u in db'.users ensures HasUptime(db', u) {
      var r :| r in db.uptimes && db.uptimes[r].userId == u;
      assert db'.uptimes[r].userId == u;
    }
  }

  /** Rows keep their keys, their users and their accounts. */
  lemma UpdatedAccounts(db: Db, db': Db)
    requires OwnAccounts(db) && db'.users.Keys == db.users.Keys && db'.ntfy.Keys == db.ntfy.Keys
    requires forall u | u in db.users :: db'.users[u].ntfyId == db.users[u].ntfyId
    requires db'.uptimes.Keys == db.uptimes.Keys && forall r | r in db.uptimes ::
             db'.uptimes[r].userId == db.uptimes[r].userId
    ensures OwnAccounts(db')
  {
    forall u | u in db'.users ensures HasUptime(db', u) {
      var r :| r in db.uptimes && db.uptimes[r].userId == u;
      assert db'.uptimes[r].userId == u;
    }
  }

  lemma CommitKeepsAccounts(b: Books, tx: Tx)
    requires OwnAccounts(b.db) && Wired(tx)
    ensures OwnAccounts(Commit(b, tx).db)
  {
    hide OwnAccounts;
    match tx
    case AddState(st, invite) =>
      if Insertable(b.db, st) {
        InsertedAccounts(b.db, st);
        if CreateState(b.db, st, invite).Ok? {
          UpdatedAccounts(InsertState(b.db, st), Commit(b, tx).db);
        }
      }
    case RemoveUser(uid) => if uid in b.db.users { RemovedAccounts(b.db, uid); }
    case _ => UpdatedAccounts(b.db, Commit(b, tx).db);
  }

  /** The same users with the same rights, invites and uses of the same owners. */
  lemma TablesUpdated(b: Books, b': Books, admins: set<ID>)
    requires TablesOk(b, admins) && b'.uses == b.uses && b'.userIds == b.userIds
    requires b'.db.users.Keys == b.db.users.Keys
    requires forall u | u in b.db.users :: b'.db.users[u].userType == b.db.users[u].userType
    requires forall i | i in b'.db.invites :: b'.db.invites[i].ownerId in admins
    ensures TablesOk(b', admins)
  {
  }

  lemma FirstKeepsTables(b: Books, admins: set<ID>, st: UserState)
    requires TablesOk(b, admins) && Lawful(b, admins, AddState(st, None)) && CreateState(b.db, st, None).Ok?
    ensures TablesOk(Commit(b, AddState(st, None)), admins + NewAdmins(AddState(st, None)))
  {
    assert |Commit(b, AddState(st, None)).userIds| == |b.userIds| + 1;
    assert admins + NewAdmins(AddState(st, None)) == {st.user.id};
  }

  lemma JoinerKeepsTables(b: Books, admins: set<ID>, st: UserState, invite: ID)
    requires TablesOk(b, admins) && Lawful(b, admins, AddState(st, Some(invite)))
             && CreateState(b.db, st, Some(invite)).Ok?
    ensures TablesOk(Commit(b, AddState(st, Some(invite))), admins)
  {
    var b' := Commit(b, AddState(st, Some(invite)));
    assert |b'.userIds| == |b.userIds| + 1 && |b'.uses| == |b.uses| + 1;
  }

  lemma AddStateKeepsTables(b: Books, admins: set<ID>, st: UserState, invite: Option<ID>)
    requires TablesOk(b, admins) && Lawful(b, admins, AddState(st, invite)) && CreateState(b.db, st, invite).Ok?
    ensures TablesOk(Commit(b, AddState(st, invite)), admins + NewAdmins(AddState(st, invite)))
  {
    if invite.None? {
      FirstKeepsTables(b, admins, st);
    } else {
      JoinerKeepsTables(b, admins, st, invite.value);
      assert admins + NewAdmins(AddState(st, invite)) == admins;
    }
  }

  lemma RemovalKeepsTables(b: Books, admins: set<ID>, uid: ID)
    requires TablesOk(b, admins) && OwnAccounts(b.db) && uid !in admins
    ensures TablesOk(Commit(b, RemoveUser(uid)), admins)
  {
    if uid in b.db.users {
      hide OwnAccounts;
      OnlyTheTargetGoes(b.db, uid);
    }
  }

  lemma CommitKeepsTables(b: Books, admins: set<ID>, tx: Tx)
    requires TablesOk(b, admins) && OwnAccounts(b.db) && Lawful(b, admins, tx)
    requires tx.AddState? ==> CreateState(b.db, tx.st, tx.invite).Ok?
    ensures TablesOk(Commit(b, tx), admins + NewAdmins(tx))
  {
    hide OwnAccounts;
    match tx
    case AddState(st, invite) => AddStateKeepsTables(b, admins, st, invite);
    case RemoveUser(uid) =>
      RemovalKeepsTables(b, admins, uid);
      assert admins + NewAdmins(tx) == admins;
    case _ => OthersKeepTables(b, admins, tx);
  }

  lemma OthersKeepTables(b: Books, admins: set<ID>, tx: Tx)
    requires TablesOk(b, admins) && Lawful(b, admins, tx) && !tx.AddState? && !tx.RemoveUser?
    ensures TablesOk(Commit(b, tx), admins + NewAdmins(tx))
  {
    assert admins + NewAdmins(tx) == admins;
    RightsStand(b, tx);
    if tx.AddInvite? || tx.RemoveInvite? {
      InviteTxKeepsOwners(b, tx, admins);
      hide Commit;
    } else {
      hide Commit;
    }
    TablesUpdated(b, Commit(b, tx), admins);
  }

  lemma RightsStand(b: Books, tx: Tx)
    requires !tx.AddState? && !tx.RemoveUser?
    ensures var b' := Commit(b, tx);
            && b'.uses == b.uses && b'.userIds == b.userIds && b'.db.users.Keys == b.db.users.Keys
            && (forall u | u in b.db.users :: b'.db.users[u].userType == b.db.users[u].userType)
    ensures !tx.AddInvite? && !tx.RemoveInvite? ==> Commit(b, tx).db.invites == b.db.invites
  {
    hide SettingsInTable, Overwritten;
    match tx
    case NewSettings(uid, req) => if uid in b.db.users { SettingsKeepRights(b.db, uid, req); }
    case _ =>
  }

  lemma SettingsKeepRights(db: Db, uid: ID, req: UpdateSettings)
    requires uid in db.users
    ensures SettingsInTable(db.users[uid], req).userType == db.users[uid].userType
  {
  }

  lemma InviteTxKeepsOwners(b: Books, tx: Tx, admins: set<ID>)
    requires (tx.AddInvite? && tx.inv.ownerId in admins) || tx.RemoveInvite?
    requires forall i | i in b.db.invites :: b.db.invites[i].ownerId in admins
    ensures forall i | i in Commit(b, tx).db.invites :: Commit(b, tx).db.invites[i].ownerId in admins
  {
  }

  // ----- The machine -----

  /** The admin is in the map. */
  predicate Started(s: Server) {
    s.admins != {} && s.admins <= s.mem.users.Keys
  }

  predicate Invited(st: UserState, admins: set<ID>) {
    st.user.userType == Normal && st.user.id !in admins
  }

  predicate Chief(st: UserState, admins: set<ID>) {
    st.user.userType == Admin && admins == {st.user.id}
  }

  /** The rights a request has earned by the steps behind it. */
  predicate Entitled(task: Task, admins: set<ID>, started: bool) {
    match task
    case BootWaiting(o) => o.invite.None?
    case BootHolding(o) => o.invite.None?
    case BootAllowed(o) => o.invite.None? && o.userType == Admin && admins == {}
    case JoinStart(o) => o.invite.Some?
    case JoinFound(o, _) => o.invite.Some?
    case Consuming(st, _) => started && Invited(st, admins)
    case AddingToken(st, boot) => if boot then Chief(st, admins) else started && Invited(st, admins)
    case AddingUser(st, boot) => if boot then Chief(st, admins) else started && Invited(st, admins)
    case Serving(uid, ask) => AdminOnly(ask) ==> started && uid in admins
    case StoringInvite(uid) => started && uid in admins
    case DeletingUser(target, _) => started && target !in admins
    case DroppingUser(target, _) => started && target !in admins
    case _ => true
  }

  predicate Booting(task: Task) {
    (task.AddingToken? || task.AddingUser?) && task.boot
  }

  ghost predicate LockOk(s: Server) {
    && (forall t | t in s.tasks :: HoldsLock(s.tasks[t]) <==> s.lock == Some(t))
    && (s.lock.Some? ==> s.lock.value in s.tasks)
  }

  ghost predicate UsersOk(users: map<ID, UserState>, admins: set<ID>) {
    forall u | u in users :: users[u].user.userType == Admin <==> u in admins
  }

  ghost predicate TasksOk(s: Server) {
    forall t | t in s.tasks :: Entitled(s.tasks[t], s.admins, Started(s))
  }

  /** Before the admin is in the map there is nobody else, and an admin in the table is on the way into the map. */
  ghost predicate Dormant(s: Server) {
    !Started(s) ==>
      && s.mem.users == map[] && s.books.db.users.Keys == s.admins && s.books.db.invites == map[]
      && (s.admins != {} ==> s.lock.Some? && s.lock.value in s.tasks && Booting(s.tasks[s.lock.value]))
  }

  ghost predicate Orderly(s: Server) {
    && TablesOk(s.books, s.admins) && OwnAccounts(s.books.db)
    && LockOk(s) && UsersOk(s.mem.users, s.admins) && TasksOk(s) && Dormant(s)
  }

  /** The lock is kept until the request is done. */
  lemma LockPassing(db: Db, m: Mem, task: Task, x: Env)
    ensures var f := Perform(db, m, task, x);
            f.next.Some? ==> (HoldsLock(f.next.value) <==> HoldsLock(task) || task.BootWaiting?)
  {
    if CreatesUser(task) {
      hide Entering, Following, CreateState, Prepared;
    } else if EntersGuards(task) {
      hide Creating, Following, UpdateSettingsRow, DeleteInvite, UnusedOf, Step, Refused;
    } else {
      LaterStepsLockNothing(db, m, task, x);
    }
  }

  lemma LaterStepsLockNothing(db: Db, m: Mem, task: Task, x: Env)
    requires !CreatesUser(task) && !EntersGuards(task)
    ensures var next := Perform(db, m, task, x).next; next.Some? ==> !HoldsLock(next.value)
  {
    hide Creating, Entering, DeleteUser, CreateInvite, OnDevice, DropInvites, HasInvite;
  }

  /** Only two steps change who is in the map, and none changes a user's rights. */
  lemma UsersEffect(db: Db, m: Mem, task: Task, x: Env)
    ensures var users := Perform(db, m, task, x).mem.users;
            && (forall u | u in m.users :: u in users || (task.DroppingUser? && u == task.target))
            && (forall u | u in users ::
                  if task.AddingUser? && u == task.st.user.id then users[u] == task.st
                  else u in m.users && users[u].user.userType == m.users[u].user.userType)
            && (task.AddingUser? ==> task.st.user.id in users)
  {
    if CreatesUser(task) {
      hide Prepared, CreateState;
    } else {
      RightsUntouched(db, m, task, x);
    }
  }

  lemma RightsUntouched(db: Db, m: Mem, task: Task, x: Env)
    requires !CreatesUser(task)
    ensures var users := Perform(db, m, task, x).mem.users;
            && (forall u | u in m.users :: u in users || (task.DroppingUser? && u == task.target))
            && (forall u | u in users :: u in m.users && users[u].user.userType == m.users[u].user.userType)
  {
    if EntersGuards(task) {
      hide Creating, Following, UpdateSettingsRow, DeleteInvite, UnusedOf;
    } else {
      LaterRightsUntouched(db, m, task, x);
    }
  }

  lemma LaterRightsUntouched(db: Db, m: Mem, task: Task, x: Env)
    requires !CreatesUser(task) && !EntersGuards(task)
    ensures var users := Perform(db, m, task, x).mem.users;
            && (forall u | u in m.users :: u in users || (task.DroppingUser? && u == task.target))
            && (forall u | u in users :: u in m.users && users[u].user.userType == m.users[u].user.userType)
  {
    hide Creating, Entering, DeleteUser, CreateInvite, HasInvite, Rejection;
  }

  /** Every transaction comes from a step that is entitled to it. */
  lemma TxIsLawful(s: Server, t: ID, x: Env)
    requires Orderly(s) && Allowed(s, Act(t, x))
    ensures var tx := Perform(s.books.db, s.mem, s.tasks[t], x).tx;
            tx.Some? ==> Lawful(s.books, s.admins, tx.value) && Wired(tx.value)
                         && (tx.value.AddState? ==> CreateState(s.books.db, tx.value.st, tx.value.invite).Ok?)
  {
    hide Perform, OwnAccounts, UsersOk, LockOk, Lawful, CreateState, Ledger.Fresh;
    var task := s.tasks[t];
    assert Entitled(task, s.admins, Started(s));
    if CreatesUser(task) {
      CreatingIsLawful(s.books, s.mem, task, x, s.admins, Started(s));
    } else {
      LaterTxIsLawful(s.books, s.mem, task, x, s.admins, Started(s));
    }
  }

  lemma CreatingIsLawful(b: Books, m: Mem, task: Task, x: Env, admins: set<ID>, started: bool)
    requires CreatesUser(task) && Entitled(task, admins, started)
    requires admins == {} ==> b.db.users == map[]
    requires var tx := Perform(b.db, m, task, x).tx; tx.Some? ==> Fresh(b, tx.value)
    ensures var tx := Perform(b.db, m, task, x).tx;
            tx.Some? ==> Lawful(b, admins, tx.value) && Wired(tx.value) && tx.value.AddState?
                         && CreateState(b.db, tx.value.st, tx.value.invite).Ok?
  {
    hide Entering, Following, Fresh;
  }

  lemma LaterTxIsLawful(b: Books, m: Mem, task: Task, x: Env, admins: set<ID>, started: bool)
    requires !CreatesUser(task) && Entitled(task, admins, started)
    ensures var tx := Perform(b.db, m, task, x).tx; tx.Some? ==> Lawful(b, admins, tx.value) && !tx.value.AddState?
  {
    hide UpdateSettingsRow, DeleteUser, DeleteInvite, CreateInvite, OnDevice, UnusedOf;
    if EntersGuards(task) {
      hide Following, Creating;
    } else {
      hide Entering, Creating;
    }
  }

  /** A user is stored only by the two steps that create one, which then carry it on into the maps. */
  lemma StoringStep(db: Db, m: Mem, task: Task, x: Env)
    ensures var f := Perform(db, m, task, x);
            f.tx.Some? && f.tx.value.AddState? ==>
              && f.next.Some?
              && if task.BootAllowed?
                 then f.tx.value.invite.None? && f.next.value == AddingToken(f.tx.value.st, true)
                 else
                   && task.JoinFound? && f.tx.value.invite.Some?
                   && f.next.value.Consuming? && f.next.value.st == f.tx.value.st
  {
    hide UpdateSettingsRow, DeleteUser, DeleteInvite, CreateState, CreateInvite, Prepared, OnDevice;
  }

  /** Every other step hands on no more rights than it had or checked. */
  lemma RightsPassOn(db: Db, m: Mem, task: Task, x: Env, admins: set<ID>, started: bool)
    requires Entitled(task, admins, started) && UsersOk(m.users, admins)
    requires started <==> admins != {} && admins <= m.users.Keys
    requires forall u, v | u in admins && v in admins :: u == v
    requires task.BootHolding? && m.users == map[] ==> admins == {}
    ensures var f := Perform(db, m, task, x);
            f.next.Some? && !(f.tx.Some? && f.tx.value.AddState?) ==> Entitled(f.next.value, admins, started)
  {
    if EntersGuards(task) {
      GuardsEntitle(db, m, task, x, admins, started);
    } else if !CreatesUser(task) {
      LaterStepsKeepRights(db, m, task, x, admins, started);
    } else {
      CreatingKeepsRights(db, m, task, x, admins, started);
    }
  }

  lemma CreatingKeepsRights(db: Db, m: Mem, task: Task, x: Env, admins: set<ID>, started: bool)
    requires CreatesUser(task) && Entitled(task, admins, started)
    requires task.BootHolding? && m.users == map[] ==> admins == {}
    ensures var f := Perform(db, m, task, x);
            f.next.Some? && !(f.tx.Some? && f.tx.value.AddState?) ==> Entitled(f.next.value, admins, started)
  {
    hide CreateState, Prepared, Entering, Following;
  }

  lemma LaterStepsKeepRights(db: Db, m: Mem, task: Task, x: Env, admins: set<ID>, started: bool)
    requires !CreatesUser(task) && !EntersGuards(task) && Entitled(task, admins, started)
    ensures var f := Perform(db, m, task, x);
            f.next.Some? ==> Entitled(f.next.value, admins, started)
  {
    hide Creating, Entering, DeleteUser, CreateInvite, OnDevice, DropInvites, HasInvite;
  }

  lemma GuardsEntitle(db: Db, m: Mem, task: Task, x: Env, admins: set<ID>, started: bool)
    requires EntersGuards(task) && Entitled(task, admins, started) && UsersOk(m.users, admins)
    requires started <==> admins != {} && admins <= m.users.Keys
    requires forall u, v | u in admins && v in admins :: u == v
    ensures var f := Perform(db, m, task, x);
            f.next.Some? ==> Entitled(f.next.value, admins, started)
  {
    hide Creating, Following, UpdateSettingsRow, DeleteUser, DeleteInvite, OnDevice, Rejection, Refused, UnusedOf,
      Step, LanguageAccepted;
    match task
    case Resolving(_, _) =>
    case CheckingAdmin(uid, _) =>
      if uid in admins { assert forall u | u in admins :: u == uid; }
    case Serving(_, _) =>
  }

  /** Whoever holds the lock and finds the map empty finds the table without an admin. */
  lemma EmptyMeansNoAdmin(s: Server, t: ID)
    requires Orderly(s) && t in s.tasks && s.tasks[t].BootHolding? && s.mem.users == map[]
    ensures s.admins == {}
  {
    hide TablesOk, OwnAccounts, UsersOk;
    assert HoldsLock(s.tasks[t]);
  }

  /** Only an allowed bootstrap makes an admin, and it goes on to bring them into the map. */
  lemma AdminsAfter(s: Server, t: ID, x: Env)
    requires Orderly(s) && Allowed(s, Act(t, x))
    ensures var f := Perform(s.books.db, s.mem, s.tasks[t], x);
            var s' := Next(s, Act(t, x));
            if s.tasks[t].BootAllowed? && f.next.Some?
            then s.admins == {} && f.next.value.AddingToken? && f.next.value.boot && Chief(f.next.value.st, s'.admins)
            else s'.admins == s.admins
  {
    hide Perform, TablesOk, OwnAccounts, UsersOk, LockOk, Ledger.Commit, Prepared, CreateState;
    var f := Perform(s.books.db, s.mem, s.tasks[t], x);
    if s.tasks[t].BootAllowed? { BootStores(s.books.db, s.mem, s.tasks[t], x); }
    if f.tx.Some? {
      TxIsLawful(s, t, x);
      StoringStep(s.books.db, s.mem, s.tasks[t], x);
    }
    assert s.admins + {} == s.admins;
  }

  lemma BootStores(db: Db, m: Mem, task: Task, x: Env)
    requires task.BootAllowed?
    ensures var f := Perform(db, m, task, x); f.next.Some? ==> f.tx.Some? && f.tx.value.AddState?
  {
  }

  lemma StartedStays(s: Server, t: ID, x: Env)
    requires Orderly(s) && Allowed(s, Act(t, x))
    ensures Started(s) ==> Started(Next(s, Act(t, x))) && Next(s, Act(t, x)).admins == s.admins
    ensures Next(s, Act(t, x)).mem.users != map[] && !Started(s) ==> Started(Next(s, Act(t, x)))
  {
    hide TablesOk, OwnAccounts, UsersOk, LockOk, Perform, NewAdmins, Ledger.Commit;
    UsersEffect(s.books.db, s.mem, s.tasks[t], x);
    AdminsAfter(s, t, x);
    assert Entitled(s.tasks[t], s.admins, Started(s));
  }

  /** An invite to consume means an admin in the map. */
  lemma JoinerIsInvited(s: Server, st: UserState, invite: ID)
    requires Orderly(s) && Lawful(s.books, s.admins, AddState(st, Some(invite)))
    requires CreateState(s.books.db, st, Some(invite)).Ok?
    ensures Started(s) && Invited(st, s.admins)
  {
    hide OwnAccounts, LockOk, UsersOk, TasksOk;
  }

  lemma NextIsEntitled(s: Server, t: ID, x: Env)
    requires Orderly(s) && Allowed(s, Act(t, x))
    ensures var f := Perform(s.books.db, s.mem, s.tasks[t], x);
            var s' := Next(s, Act(t, x));
            f.next.Some? ==> Entitled(f.next.value, s'.admins, Started(s'))
  {
    hide Orderly, Apply, Ledger.Commit, Perform, CreateState, Lawful, Wired, FreshDraw, NewAdmins, Started;
    var task := s.tasks[t];
    var f := Perform(s.books.db, s.mem, task, x);
    StartedStays(s, t, x);
    AdminsAfter(s, t, x);
    if f.tx.Some? && f.tx.value.AddState? {
      TxIsLawful(s, t, x);
      StoringStep(s.books.db, s.mem, task, x);
      if f.tx.value.invite.Some? {
        JoinerIsInvited(s, f.tx.value.st, f.tx.value.invite.value);
      }
    } else {
      if task.BootAllowed? { BootStores(s.books.db, s.mem, task, x); }
      OtherNextIsEntitled(s, t, x);
    }
  }

  lemma OtherNextIsEntitled(s: Server, t: ID, x: Env)
    requires Orderly(s) && t in s.tasks
    ensures var f := Perform(s.books.db, s.mem, s.tasks[t], x);
            f.next.Some? && !(f.tx.Some? && f.tx.value.AddState?) ==> Entitled(f.next.value, s.admins, Started(s))
  {
    hide OwnAccounts, LockOk, Perform, Dormant;
    assert Entitled(s.tasks[t], s.admins, Started(s));
    if s.tasks[t].BootHolding? && s.mem.users == map[] {
      EmptyMeansNoAdmin(s, t);
    }
    RightsPassOn(s.books.db, s.mem, s.tasks[t], x, s.admins, Started(s));
  }

  lemma NotStartedWithoutAdmin(s: Server)
    requires s.admins == {}
    ensures !Started(s)
  {
  }

  /** Rights survive the birth of the admin: nobody held any before. */
  lemma RightsSurvive(s: Server, t: ID, x: Env)
    requires Orderly(s) && Allowed(s, Act(t, x))
    ensures TasksOk(Next(s, Act(t, x)))
  {
    hide Perform, TablesOk, OwnAccounts, UsersOk, Ledger.Commit, Started, Dormant, NewAdmins;
    var s' := Next(s, Act(t, x));
    NextIsEntitled(s, t, x);
    StartedStays(s, t, x);
    AdminsAfter(s, t, x);
    forall o | o in s'.tasks ensures Entitled(s'.tasks[o], s'.admins, Started(s')) {
      if o != t {
        assert Entitled(s.tasks[o], s.admins, Started(s));
        if s'.admins != s.admins {
          NotStartedWithoutAdmin(s);
        }
      }
    }
  }

  lemma LockAfter(s: Server, t: ID, x: Env)
    requires Orderly(s) && Allowed(s, Act(t, x))
    ensures LockOk(Next(s, Act(t, x)))
  {
    hide Perform, TablesOk, OwnAccounts, UsersOk, TasksOk, Dormant, Ledger.Commit, NewAdmins;
    LockPassing(s.books.db, s.mem, s.tasks[t], x);
  }

  lemma TablesAfter(s: Server, t: ID, x: Env)
    requires Orderly(s) && Allowed(s, Act(t, x))
    ensures var s' := Next(s, Act(t, x)); TablesOk(s'.books, s'.admins) && OwnAccounts(s'.books.db)
  {
    hide Perform, TablesOk, OwnAccounts, UsersOk, LockOk, TasksOk, Dormant, Ledger.Commit, NewAdmins, Lawful,
      CreateState;
    var f := Perform(s.books.db, s.mem, s.tasks[t], x);
    if f.tx.Some? {
      TxIsLawful(s, t, x);
      CommitKeepsTables(s.books, s.admins, f.tx.value);
      CommitKeepsAccounts(s.books, f.tx.value);
    } else {
      assert s.admins + {} == s.admins;
    }
  }

  lemma UsersAfter(s: Server, t: ID, x: Env)
    requires Orderly(s) && Allowed(s, Act(t, x))
    ensures var s' := Next(s, Act(t, x)); UsersOk(s'.mem.users, s'.admins)
  {
    hide Perform, TablesOk, OwnAccounts, LockOk, Ledger.Commit, NewAdmins;
    UsersEffect(s.books.db, s.mem, s.tasks[t], x);
    AdminsAfter(s, t, x);
    assert Entitled(s.tasks[t], s.admins, Started(s));
  }

  /** Until the admin is in the map the tables hold nobody but the admin. */
  lemma DormantTables(s: Server, t: ID, x: Env)
    requires Orderly(s) && Allowed(s, Act(t, x)) && !Started(s)
    ensures var s' := Next(s, Act(t, x)); s'.books.db.users.Keys == s'.admins && s'.books.db.invites == map[]
  {
    hide Perform, TablesOk, OwnAccounts, UsersOk, LockOk, TasksOk, Ledger.Commit, Lawful, Wired, CreateState;
    var f := Perform(s.books.db, s.mem, s.tasks[t], x);
    if f.tx.Some? {
      TxIsLawful(s, t, x);
      TxNeedsStart(s, t, x);
      DormantCommit(s.books, s.admins, f.tx.value);
    }
  }

  lemma DormantCommit(b: Books, admins: set<ID>, tx: Tx)
    requires b.db.users.Keys == admins && b.db.invites == map[] && Lawful(b, admins, tx)
    requires !tx.AddInvite? && !tx.RemoveUser?
    requires tx.AddState? ==> tx.invite.None? && CreateState(b.db, tx.st, None).Ok?
    ensures Commit(b, tx).db.users.Keys == admins + NewAdmins(tx) && Commit(b, tx).db.invites == map[]
  {
  }

  /** Inviting, joining and deleting wait for the admin. */
  lemma TxNeedsStart(s: Server, t: ID, x: Env)
    requires Orderly(s) && Allowed(s, Act(t, x)) && !Started(s)
    ensures var tx := Perform(s.books.db, s.mem, s.tasks[t], x).tx;
            tx.Some? ==> !tx.value.AddInvite? && !tx.value.RemoveUser?
                         && (tx.value.AddState? ==> tx.value.invite.None?)
  {
    hide TablesOk, OwnAccounts, LockOk, UsersOk, DeleteUser, UpdateSettingsRow, DeleteInvite, CreateInvite, Started;
    assert Entitled(s.tasks[t], s.admins, Started(s));
  }

  lemma BootingGoesOn(db: Db, m: Mem, task: Task, x: Env)
    requires Booting(task)
    ensures var f := Perform(db, m, task, x);
            task.AddingToken? ==> f.next.Some? && Booting(f.next.value)
    ensures var f := Perform(db, m, task, x); task.AddingUser? ==> task.st.user.id in f.mem.users
  {
  }

  lemma DormantAfter(s: Server, t: ID, x: Env)
    requires Orderly(s) && Allowed(s, Act(t, x))
    ensures Dormant(Next(s, Act(t, x)))
  {
    hide Perform, TablesOk, OwnAccounts, UsersOk, Ledger.Commit, NewAdmins;
    var s' := Next(s, Act(t, x));
    if !Started(s') {
      StartedStays(s, t, x);
      DormantTables(s, t, x);
      AdminsAfter(s, t, x);
      LockPassing(s.books.db, s.mem, s.tasks[t], x);
      if Booting(s.tasks[t]) { BootingGoesOn(s.books.db, s.mem, s.tasks[t], x); }
    }
  }

  lemma OrderlyAct(s: Server, t: ID, x: Env)
    requires Orderly(s) && Allowed(s, Act(t, x))
    ensures Orderly(Next(s, Act(t, x)))
  {
    hide Perform, TablesOk, OwnAccounts, LockOk, UsersOk, TasksOk, Dormant, Ledger.Commit, NewAdmins;
    TablesAfter(s, t, x);
    LockAfter(s, t, x);
    UsersAfter(s, t, x);
    RightsSurvive(s, t, x);
    DormantAfter(s, t, x);
  }

  lemma ScanKeepsUsers(users: map<ID, UserState>, now: Time, clock: ID -> Time)
    ensures var users' := Scanned(users, now, clock);
            users'.Keys == users.Keys && forall u | u in users :: users'[u].user == users[u].user
  {
  }

  lemma OrderlyScan(s: Server, e: Move)
    requires Orderly(s) && e.ScanAll? && Allowed(s, e)
    ensures Orderly(Next(s, e))
  {
    hide TablesOk, OwnAccounts, ToPersist, Scanned;
    ScanKeepsUsers(s.mem.users, e.now, e.clock);
    assert Started(Next(s, e)) == Started(s);
  }

  lemma OrderlyArrival(s: Server, e: Move)
    requires Orderly(s) && e.Arrive? && Allowed(s, e)
    ensures Orderly(Next(s, e))
  {
    hide TablesOk, OwnAccounts, UsersOk;
    assert Started(Next(s, e)) == Started(s);
  }

  /** A restart loads every user, and so brings an admin on the way into the map. */
  lemma OrderlyCrash(s: Server, e: Move)
    requires Orderly(s) && e.Crash? && Allowed(s, e)
    ensures Orderly(Next(s, e))
    ensures s.admins != {} ==> Started(Next(s, e))
  {
    hide TablesOk, OwnAccounts, UsersOk, IsLoadOf, CanLoad, JoinedUsers;
    EveryoneJoins(s.books.db);
    LoadedRights(s.books, e.loaded, s.admins);
  }

  lemma LoadedRights(b: Books, m: Mem, admins: set<ID>)
    requires TablesOk(b, admins) && IsLoadOf(b.db, m) && JoinedUsers(b.db) == b.db.users.Keys
    ensures admins <= m.users.Keys == b.db.users.Keys && UsersOk(m.users, admins)
  {
    hide IsLatest, JoinedUsers;
  }

  /** A load cannot fail, and leaves nobody out. */
  lemma EveryoneJoins(db: Db)
    requires OwnAccounts(db)
    ensures CanLoad(db) && JoinedUsers(db) == db.users.Keys
  {
    hide HasUptime;
  }

  lemma OrderlyNext(s: Server, e: Move)
    requires Orderly(s) && Allowed(s, e)
    ensures Orderly(Next(s, e))
  {
    hide Orderly, Perform;
    match e
    case Arrive(_, _) => OrderlyArrival(s, e);
    case Act(t, x) => OrderlyAct(s, t, x);
    case ScanAll(_, _, _, _) => OrderlyScan(s, e);
    case Crash(_) => OrderlyCrash(s, e);
  }

  lemma {:induction false} AlwaysOrderly(es: seq<Move>)
    requires AllAllowed(COLD, es)
    ensures Orderly(After(COLD, es))
  {
    if es != [] {
      AlwaysOrderly(es[..|es| - 1]);
      OrderlyNext(After(COLD, es[..|es| - 1]), es[|es| - 1]);
    }
  }

  // ----- The results -----

  lemma BooksFollow(s: Server, e: Move)
    requires Balanced(s.books) && Allowed(s, e)
    ensures Balanced(Next(s, e).books)
  {
    hide Balanced, Perform, Commit;
    if e.Act? {
      var tx := Perform(s.books.db, s.mem, s.tasks[e.t], e.x).tx;
      if tx.Some? { CommitBalanced(s.books, tx.value); }
    }
  }

  /** Whatever the maps say meanwhile, the invite books balance under every interleaving: each owner's used count is
      their unused invites plus all theirs ever consumed and within the limit, and no invite makes two users. */
  lemma {:induction false} BooksBalanceConcurrently(es: seq<Move>)
    requires AllAllowed(COLD, es)
    ensures var b := After(COLD, es).books;
            && (forall o | o in b.db.users ::
                  b.db.users[o].invitesUsed == |UnusedOf(b.db, o)| + UsesOf(b.uses, o)
                  <= Max(b.db.users[o].invitesLimit, 0))
            && (forall j, k | 0 <= j < k < |b.uses| :: b.uses[j].invite != b.uses[k].invite)
    ensures Balanced(After(COLD, es).books)
  {
    if es != [] {
      BooksBalanceConcurrently(es[..|es| - 1]);
      BooksFollow(After(COLD, es[..|es| - 1]), es[|es| - 1]);
    }
    var b := After(COLD, es).books;
    assert Balanced(b);
    assert forall o | o in b.db.users :: Conserved(b, o);
  }

  /** A request that found an invite in the map, but whose invite has been consumed or deleted since, leaves the
      tables as they are and is done, whatever else is in flight. */
  lemma {:induction false} LateJoinerLeavesNothing(es: seq<Move>, t: ID, x: Env)
    requires AllAllowed(COLD, es) && Allowed(After(COLD, es), Act(t, x))
    requires var s := After(COLD, es);
             && s.tasks[t].JoinFound?
             && (s.tasks[t].invite !in s.books.db.invites
                || exists k | 0 <= k < |s.books.uses| :: s.books.uses[k].invite == s.tasks[t].invite)
    ensures var s, s' := After(COLD, es), Next(After(COLD, es), Act(t, x));
            s'.books == s.books && s'.mem == s.mem && t !in s'.tasks
  {
    BooksBalanceConcurrently(es);
    var s := After(COLD, es);
    LateInviteIsUsed(s.books, s.tasks[t].invite);
    hide Balanced, FreshDraw, Prepared, After, AllAllowed, Insertable;
    LateJoinerStops(s.books.db, s.mem, s.tasks[t], x);
    hide Perform;
    assert s.admins + {} == s.admins;
  }

  lemma LateInviteIsUsed(b: Books, invite: ID)
    requires Balanced(b)
    requires invite !in b.db.invites || exists k | 0 <= k < |b.uses| :: b.uses[k].invite == invite
    ensures !Unused(b.db, invite)
  {
  }

  lemma LateJoinerStops(db: Db, m: Mem, task: Task, x: Env)
    requires task.JoinFound? && !Unused(db, task.invite)
    ensures Perform(db, m, task, x) == Done(m)
  {
    hide Entering, Following, Prepared, Insertable;
  }

  lemma {:induction false} AllUsesOf(uses: seq<Use>, owner: ID)
    requires forall k | 0 <= k < |uses| :: uses[k].owner == owner
    ensures UsesOf(uses, owner) == |uses|
  {
    if uses != [] {
      AllUsesOf(uses[..|uses| - 1], owner);
    }
  }

  lemma UsersAreCounted(b: Books, admins: set<ID>)
    requires TablesOk(b, admins) && Balanced(b)
    ensures |admins| <= 1 && (admins == {} ==> b.userIds == {})
    ensures forall a | a in admins :: |b.userIds| <= 1 + Max(b.db.users[a].invitesLimit, 0)
  {
    if admins == {} {
      assert |b.uses| == 0;
    } else {
      var a :| a in admins;
      assert admins == {a};
      AllUsesOf(b.uses, a);
      assert Conserved(b, a);
    }
  }

  /** One admin ever, who is never deleted; the admins in the table and in the map are that one and nobody else. */
  lemma {:induction false} SoleAdmin(es: seq<Move>)
    requires AllAllowed(COLD, es)
    ensures var s := After(COLD, es);
            var db, users := s.books.db, s.mem.users;
            && |s.admins| <= 1
            && s.admins <= db.users.Keys
            && (forall u | u in db.users :: db.users[u].userType == Admin <==> u in s.admins)
            && (forall u | u in users :: users[u].user.userType == Admin <==> u in s.admins)
  {
    hide OwnAccounts, IsLoadOf;
    AlwaysOrderly(es);
    BooksBalanceConcurrently(es);
    UsersAreCounted(After(COLD, es).books, After(COLD, es).admins);
  }

  /** Everybody but the admin came by an invite of the admin's, so the admin's limit bounds the users ever created,
      deleted ones included. */
  lemma {:induction false} InvitesBoundUsers(es: seq<Move>)
    requires AllAllowed(COLD, es)
    ensures var s := After(COLD, es);
            && (s.admins == {} ==> s.books.userIds == {})
            && (forall a | a in s.admins ::
                  a in s.books.db.users && |s.books.userIds| <= 1 + Max(s.books.db.users[a].invitesLimit, 0))
  {
    hide OwnAccounts, IsLoadOf;
    AlwaysOrderly(es);
    BooksBalanceConcurrently(es);
    UsersAreCounted(After(COLD, es).books, After(COLD, es).admins);
  }

  /** A restart can be made at any time, and every user is there after it. */
  lemma {:induction false} RestartAlwaysPossible(es: seq<Move>)
    requires AllAllowed(COLD, es)
    ensures var db := After(COLD, es).books.db;
            CanLoad(db) && forall m | IsLoadOf(db, m) :: m.users.Keys == db.users.Keys
  {
    AlwaysOrderly(es);
    EveryoneJoins(After(COLD, es).books.db);
  }

  lemma StartedForGood(s: Server, e: Move)
    requires Orderly(s) && Allowed(s, e) && Started(s)
    ensures Started(Next(s, e)) && Next(s, e).admins == s.admins
  {
    match e
    case Act(t, x) => StartedStays(s, t, x);
    case Crash(_) => OrderlyCrash(s, e);
    case _ =>
  }

  /** Once there are users in the map there always are, whatever is deleted and however often the server restarts;
      the admin among them stays the same. So nobody bootstraps a second time. */
  lemma {:induction false} NeverEmptyAgain(es: seq<Move>, k: nat)
    requires AllAllowed(COLD, es) && k <= |es| && After(COLD, es[..k]).mem.users != map[]
    ensures var s := After(COLD, es);
            Started(s) && s.mem.users != map[] && s.admins == After(COLD, es[..k]).admins
  {
    if k == |es| {
      assert es[..k] == es;
      AlwaysOrderly(es);
    } else {
      var before := es[..|es| - 1];
      assert before[..k] == es[..k];
      NeverEmptyAgain(before, k);
      AlwaysOrderly(before);
      StartedForGood(After(COLD, before), es[|es| - 1]);
    }
  }
}
