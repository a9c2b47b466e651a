/** What the tables may hold about devices and settings, under any interleaving.

    Uptime rows are written some time after the state they record, in any order and perhaps not at all, so the table
    may lag behind the map; but it never holds a row that is not the device's own past. */
module History {
  import opened Base
  import opened Uptime
  import opened Models
  import opened Device
  import opened Memory
  import opened Tables
  import opened Registry
  import opened Concurrent
  import Ledger

  // ----- Rows -----

  /** `b` can be a later state of the device that was in state `a`. */
  predicate Continues(a: UptimeRow, b: UptimeRow) {
    b.id == a.id && b.createdAt == a.createdAt && b.userId == a.userId && (WellFormed(a) ==> WellFormed(b))
  }

  predicate Initial(row: UptimeRow) {
    row == NewRow(row.id, row.userId, row.createdAt)
  }

  ghost predicate SeenOk(seen: set<UptimeRow>) {
    && (forall row | row in seen :: WellFormed(row))
    && (forall a, b | a in seen && b in seen && a.id == b.id :: a.createdAt == b.createdAt && a.userId == b.userId)
  }

  ghost predicate StoredOk(uptimes: map<ID, UptimeRow>, seen: set<UptimeRow>) {
    forall r | r in uptimes :: uptimes[r].id == r && uptimes[r] in seen
  }

  ghost predicate CarriesSeen(task: Task, seen: set<UptimeRow>) {
    match task
    case Consuming(st, _) => st.uptime in seen
    case AddingToken(st, _) => st.uptime in seen
    case AddingUser(st, _) => st.uptime in seen
    case Writing(rows) => forall row | row in rows :: row in seen
    case _ => true
  }

  ghost predicate Recorded(s: Server) {
    && SeenOk(s.seen) && StoredOk(s.books.db.uptimes, s.seen) && Live(s.mem.users) <= s.seen
    && (forall t | t in s.tasks :: CarriesSeen(s.tasks[t], s.seen))
  }

  lemma StepContinues(d: UserState, e: Device.Event)
    ensures Continues(d.uptime, Step(d, e).uptime)
  {
  }

  /** Every state in the map continues the one before, but for a user who enters. */
  lemma RowsContinue(db: Db, m: Mem, task: Task, x: Env)
    ensures var users := Perform(db, m, task, x).mem.users;
            forall u | u in users ::
              if task.AddingUser? && u == task.st.user.id then users[u].uptime == task.st.uptime
              else u in m.users && Continues(m.users[u].uptime, users[u].uptime)
  {
    hide UpdateSettingsRow, DeleteUser, DeleteInvite, CreateInvite, UnusedOf, CreateState, Prepared, Step, Refused;
    if CreatesUser(task) {
      hide Entering, Following;
    } else if EntersGuards(task) {
      hide Creating, Following;
      if task.Serving? && task.uid in m.users {
        StepContinues(m.users[task.uid], Device.Event.Ping(x.now, x.at));
        StepContinues(m.users[task.uid], Device.Event.Pause(x.at));
        StepContinues(m.users[task.uid], Device.Event.Unpause(x.at));
      }
    } else {
      LaterRowsContinue(db, m, task, x);
    }
  }

  lemma LaterRowsContinue(db: Db, m: Mem, task: Task, x: Env)
    requires !CreatesUser(task) && !EntersGuards(task)
    ensures var users := Perform(db, m, task, x).mem.users;
            forall u | u in users :: u in m.users && Continues(m.users[u].uptime, users[u].uptime)
  {
    hide Creating, Entering, DeleteUser, CreateInvite, Step, WellFormed;
    if task.Adopting? && task.uid in m.users {
      StepContinues(m.users[task.uid], Device.Event.Settings(task.req, x.at));
    }
  }

  /** What a step passes on is live in the map it leaves, or just stored, or was passed on to it. */
  lemma NextCarriesSeen(db: Db, m: Mem, task: Task, x: Env, seen: set<UptimeRow>)
    requires CarriesSeen(task, seen)
    ensures var f := Perform(db, m, task, x);
            f.next.Some? ==>
              CarriesSeen(f.next.value, seen + Live(f.mem.users) + (if f.tx.Some? then NewRows(f.tx.value) else {}))
  {
    if CreatesUser(task) {
      hide Entering, Following, CreateState, Prepared;
    } else if EntersGuards(task) {
      EnteringCarriesSeen(db, m, task, x, seen);
    } else {
      FollowingCarriesSeen(db, m, task, x, seen);
    }
  }

  lemma EnteringCarriesSeen(db: Db, m: Mem, task: Task, x: Env, seen: set<UptimeRow>)
    requires EntersGuards(task)
    ensures var f := Perform(db, m, task, x);
            f.next.Some? ==> CarriesSeen(f.next.value,
              seen + Live(f.mem.users) + (if f.tx.Some? then NewRows(f.tx.value) else {}))
  {
    hide Creating, Following, UpdateSettingsRow, DeleteInvite, UnusedOf, Step, Refused;
    var f := Perform(db, m, task, x);
    if f.next.Some? && f.next.value.Writing? {
      assert f.mem.users[task.uid].uptime in Live(f.mem.users);
    }
  }

  lemma FollowingCarriesSeen(db: Db, m: Mem, task: Task, x: Env, seen: set<UptimeRow>)
    requires !CreatesUser(task) && !EntersGuards(task) && CarriesSeen(task, seen)
    ensures var f := Perform(db, m, task, x);
            f.next.Some? ==> CarriesSeen(f.next.value, seen)
  {
    hide Creating, Entering, DeleteUser, CreateInvite, OnDevice, DropInvites, HasInvite;
  }

  /** A write carries a recorded row; a new row starts a new device. */
  lemma TxCarriesSeen(db: Db, m: Mem, task: Task, x: Env, seen: set<UptimeRow>)
    requires CarriesSeen(task, seen)
    ensures var tx := Perform(db, m, task, x).tx;
            tx.Some? ==> (tx.value.WriteUptime? ==> tx.value.row in seen)
                         && (tx.value.AddState? ==> Initial(tx.value.st.uptime))
  {
    hide UpdateSettingsRow, DeleteUser, DeleteInvite, CreateInvite, UnusedOf, CreateState, DropInvites, Step, Refused;
    if CreatesUser(task) {
      hide Entering, Following;
    } else if EntersGuards(task) {
      hide Creating, Following;
    } else {
      hide Creating, Entering;
    }
  }

  /** A written row replaces an earlier or later state of the same device, whole. */
  lemma CommitStoresSeen(b: Ledger.Books, tx: Ledger.Tx, seen: set<UptimeRow>)
    requires SeenOk(seen) && StoredOk(b.db.uptimes, seen) && (tx.WriteUptime? ==> tx.row in seen)
    ensures StoredOk(Ledger.Commit(b, tx).db.uptimes, seen + NewRows(tx))
  {
    if tx.WriteUptime? && tx.row.id in b.db.uptimes {
      assert Overwritten(b.db.uptimes[tx.row.id], tx.row) == tx.row;
    }
  }

  lemma SeenGrows(seen: set<UptimeRow>, more: set<UptimeRow>)
    requires SeenOk(seen) && forall b | b in more :: exists a | a in seen :: Continues(a, b)
    ensures SeenOk(seen + more)
  {
  }

  lemma SeenBegins(seen: set<UptimeRow>, row: UptimeRow)
    requires SeenOk(seen) && WellFormed(row) && forall a | a in seen :: a.id != row.id
    ensures SeenOk(seen + {row})
  {
  }

  lemma SeenAfter(s: Server, t: ID, x: Env)
    requires Recorded(s) && Allowed(s, Act(t, x))
    ensures SeenOk(Next(s, Act(t, x)).seen)
  {
    hide Perform, StoredOk, Ledger.Commit, Continues, WellFormed, Ledger.Fresh, SeenOk;
    var f := Perform(s.books.db, s.mem, s.tasks[t], x);
    var news := if f.tx.Some? then NewRows(f.tx.value) else {};
    TxCarriesSeen(s.books.db, s.mem, s.tasks[t], x, s.seen);
    RowsContinue(s.books.db, s.mem, s.tasks[t], x);
    assert SeenOk(s.seen + news) by {
      if news == {} {
        assert s.seen + news == s.seen;
      } else {
        InitialIsWellFormed(f.tx.value.st.uptime);
        SeenBegins(s.seen, f.tx.value.st.uptime);
      }
    }
    forall b | b in Live(f.mem.users) ensures exists a | a in s.seen + news :: Continues(a, b) {
      var u :| u in f.mem.users && f.mem.users[u].uptime == b;
      if s.tasks[t].AddingUser? && u == s.tasks[t].st.user.id {
        ContinuesItself(b);
        assert b in s.seen + news;
      } else {
        assert s.mem.users[u].uptime in Live(s.mem.users);
        assert s.mem.users[u].uptime in s.seen + news;
      }
    }
    SeenGrows(s.seen + news, Live(f.mem.users));
    assert s.seen + news + Live(f.mem.users) == Next(s, Act(t, x)).seen;
  }

  lemma InitialIsWellFormed(row: UptimeRow)
    requires Initial(row)
    ensures WellFormed(row)
  {
  }

  lemma ContinuesItself(row: UptimeRow)
    ensures Continues(row, row)
  {
  }

  lemma RecordedAct(s: Server, t: ID, x: Env)
    requires Recorded(s) && Allowed(s, Act(t, x))
    ensures Recorded(Next(s, Act(t, x)))
  {
    hide Perform, SeenOk, Ledger.Commit, Ledger.Fresh, CarriesSeen, NewRows;
    var s' := Next(s, Act(t, x));
    var f := Perform(s.books.db, s.mem, s.tasks[t], x);
    SeenAfter(s, t, x);
    NextCarriesSeen(s.books.db, s.mem, s.tasks[t], x, s.seen);
    TxCarriesSeen(s.books.db, s.mem, s.tasks[t], x, s.seen);
    if f.tx.Some? {
      CommitStoresSeen(s.books, f.tx.value, s.seen);
    }
    forall o | o in s'.tasks ensures CarriesSeen(s'.tasks[o], s'.seen) {
      if o != t { StillSeen(s.tasks[o], s.seen, s'.seen); }
    }
  }

  lemma StillSeen(task: Task, seen: set<UptimeRow>, seen': set<UptimeRow>)
    requires CarriesSeen(task, seen) && seen <= seen'
    ensures CarriesSeen(task, seen')
  {
  }

  lemma RecordedScan(s: Server, e: Move)
    requires Recorded(s) && e.ScanAll? && Allowed(s, e)
    ensures Recorded(Next(s, e))
  {
    hide SeenOk, Step, Continues, Calls;
    var users := Scanned(s.mem.users, e.now, e.clock);
    forall b | b in Live(users) ensures exists a | a in s.seen :: Continues(a, b) {
      var u :| u in users && users[u].uptime == b;
      StepContinues(s.mem.users[u], Device.Event.Scan(e.now, e.clock(u)));
      assert s.mem.users[u].uptime in Live(s.mem.users);
    }
    SeenGrows(s.seen, Live(users));
    forall row | row in e.rows ensures row in Live(users) {
      var u :| u in s.mem.users && FellTo(s.mem.users, {}, u, e.now, e.clock, row);
      assert users[u].uptime == row;
    }
    var s' := Next(s, e);
    forall o | o in s'.tasks ensures CarriesSeen(s'.tasks[o], s'.seen) {
      if o != e.t { StillSeen(s.tasks[o], s.seen, s'.seen); }
    }
  }

  lemma RecordedCrash(s: Server, e: Move)
    requires Recorded(s) && e.Crash? && Allowed(s, e)
    ensures Recorded(Next(s, e))
  {
    hide SeenOk;
    forall u | u in e.loaded.users ensures e.loaded.users[u].uptime in s.seen {
      assert IsLoaded(s.books.db, e.loaded.users[u]);
    }
  }

  lemma RecordedNext(s: Server, e: Move)
    requires Recorded(s) && Allowed(s, e)
    ensures Recorded(Next(s, e))
  {
    match e
    case Act(t, x) => RecordedAct(s, t, x);
    case ScanAll(_, _, _, _) => RecordedScan(s, e);
    case Crash(_) => RecordedCrash(s, e);
    case Arrive(_, _) => hide SeenOk;
  }

  /** A state the map showed at some moment of the run. */
  ghost predicate WasLive(es: seq<Move>, row: UptimeRow) {
    exists k | 0 <= k <= |es| :: row in Live(After(COLD, es[..k]).mem.users)
  }

  lemma {:induction false} SeenWasLive(es: seq<Move>)
    requires AllAllowed(COLD, es)
    ensures Recorded(After(COLD, es))
    ensures forall row | row in After(COLD, es).seen :: Initial(row) || WasLive(es, row)
  {
    if es != [] {
      var before := es[..|es| - 1];
      var s, e := After(COLD, before), es[|es| - 1];
      SeenWasLive(before);
      RecordedNext(s, e);
      forall row | row in After(COLD, es).seen ensures Initial(row) || WasLive(es, row) {
        NewlySeen(s, e, row);
        if row in s.seen {
          if !Initial(row) { StillWasLive(before, es, row); }
        } else if !Initial(row) {
          assert es[..|es|] == es;
        }
      }
    }
  }

  lemma NewlySeen(s: Server, e: Move, row: UptimeRow)
    requires Recorded(s) && Allowed(s, e) && row in Next(s, e).seen
    ensures row in s.seen || Initial(row) || row in Live(Next(s, e).mem.users)
  {
    hide Perform, Ledger.Commit, SeenOk;
    if e.Act? {
      TxCarriesSeen(s.books.db, s.mem, s.tasks[e.t], e.x, s.seen);
    }
  }

  lemma StillWasLive(before: seq<Move>, es: seq<Move>, row: UptimeRow)
    requires |before| <= |es| && before == es[..|before|] && WasLive(before, row)
    ensures WasLive(es, row)
  {
    var k :| 0 <= k <= |before| && row in Live(After(COLD, before[..k]).mem.users);
    assert es[..k] == before[..k];
  }

  /** Deferred writes may land in any order or never, and the server may restart at any moment; still every stored
      row is the device's first row or a state the device was in, and Paused stands exactly where the status to
      return to is Up or Down, in the table and in the map. */
  lemma {:induction false} PersistedRowsAreHistory(es: seq<Move>)
    requires AllAllowed(COLD, es)
    ensures var s := After(COLD, es);
            && (forall r | r in s.books.db.uptimes ::
                  var row := s.books.db.uptimes[r];
                  row.id == r && WellFormed(row) && (Initial(row) || WasLive(es, row)))
            && (forall u | u in s.mem.users :: WellFormed(s.mem.users[u].uptime))
  {
    SeenWasLive(es);
    var s := After(COLD, es);
    forall u | u in s.mem.users ensures s.mem.users[u].uptime in s.seen {
      assert s.mem.users[u].uptime in Live(s.mem.users);
    }
  }

  // ----- Settings -----

  predicate CarriesValid(task: Task) {
    match task
    case Consuming(st, _) => ValidSettings(st.user)
    case AddingToken(st, _) => ValidSettings(st.user)
    case AddingUser(st, _) => ValidSettings(st.user)
    case Adopting(_, req) => Rejection(req).None?
    case _ => true
  }

  ghost predicate RowsValid(rows: map<ID, User>) {
    forall u | u in rows :: ValidSettings(rows[u])
  }

  ghost predicate CachedValid(users: map<ID, UserState>) {
    forall u | u in users :: ValidSettings(users[u].user)
  }

  ghost predicate AllValid(s: Server) {
    && RowsValid(s.books.db.users) && CachedValid(s.mem.users)
    && (forall t | t in s.tasks :: CarriesValid(s.tasks[t]))
  }

  lemma AcceptedKeepsValid(u: User, req: UpdateSettings)
    requires ValidSettings(u) && Rejection(req).None?
    ensures ValidSettings(SettingsInMemory(u, req)) && SettingsInTable(u, req) == SettingsInMemory(u, req)
  {
    TableAndMemoryUpdatesAgree(req, u);
  }

  lemma DeviceEventKeepsValid(d: UserState, e: Device.Event)
    requires ValidSettings(d.user)
    ensures ValidSettings(Step(d, e).user)
  {
    if e.Settings? && Rejection(e.req).None? {
      AcceptedKeepsValid(d.user, e.req);
    }
  }

  lemma CachedStaysValid(db: Db, m: Mem, task: Task, x: Env)
    requires CachedValid(m.users) && CarriesValid(task)
    ensures CachedValid(Perform(db, m, task, x).mem.users)
  {
    hide UpdateSettingsRow, DeleteUser, DeleteInvite, CreateInvite, UnusedOf, CreateState, Prepared, Step, Refused,
      Rejection;
    if CreatesUser(task) {
      hide Entering, Following;
    } else if EntersGuards(task) {
      hide Creating, Following;
      if task.Serving? && task.uid in m.users {
        DeviceEventKeepsValid(m.users[task.uid], Device.Event.Ping(x.now, x.at));
        DeviceEventKeepsValid(m.users[task.uid], Device.Event.Pause(x.at));
        DeviceEventKeepsValid(m.users[task.uid], Device.Event.Unpause(x.at));
      }
    } else {
      LaterStepsStayValid(db, m, task, x);
    }
  }

  lemma LaterStepsStayValid(db: Db, m: Mem, task: Task, x: Env)
    requires !CreatesUser(task) && !EntersGuards(task) && CachedValid(m.users) && CarriesValid(task)
    ensures CachedValid(Perform(db, m, task, x).mem.users)
  {
    hide Creating, Entering, DeleteUser, CreateInvite, Step, Rejection;
    if task.Adopting? && task.uid in m.users {
      DeviceEventKeepsValid(m.users[task.uid], Device.Event.Settings(task.req, x.at));
    }
  }

  lemma NextCarriesValid(db: Db, m: Mem, task: Task, x: Env)
    requires CarriesValid(task)
    ensures var f := Perform(db, m, task, x);
            && (f.next.Some? ==> CarriesValid(f.next.value))
            && (f.tx.Some? && f.tx.value.AddState? ==> ValidSettings(f.tx.value.st.user))
            && (f.tx.Some? && f.tx.value.NewSettings? ==> Rejection(f.tx.value.req).None?)
  {
    if CreatesUser(task) {
      hide Entering, Following, CreateState;
    } else if EntersGuards(task) {
      EnteringCarriesValid(db, m, task, x);
    } else {
      FollowingCarriesValid(db, m, task, x);
    }
  }

  lemma EnteringCarriesValid(db: Db, m: Mem, task: Task, x: Env)
    requires EntersGuards(task)
    ensures var f := Perform(db, m, task, x);
            && (f.next.Some? ==> CarriesValid(f.next.value))
            && (f.tx.Some? ==> !f.tx.value.AddState? && (f.tx.value.NewSettings? ==> Rejection(f.tx.value.req).None?))
  {
    hide Creating, Following, UpdateSettingsRow, DeleteInvite, UnusedOf, Step, Refused, Rejection;
  }

  lemma FollowingCarriesValid(db: Db, m: Mem, task: Task, x: Env)
    requires !CreatesUser(task) && !EntersGuards(task)
    ensures var f := Perform(db, m, task, x);
            && (f.next.Some? ==> CarriesValid(f.next.value))
            && (f.tx.Some? ==> !f.tx.value.AddState? && !f.tx.value.NewSettings?)
  {
    hide Creating, Entering, DeleteUser, CreateInvite, OnDevice, DropInvites, HasInvite;
  }

  lemma CommitKeepsValid(b: Ledger.Books, tx: Ledger.Tx)
    requires RowsValid(b.db.users)
    requires tx.AddState? ==> ValidSettings(tx.st.user)
    requires tx.NewSettings? ==> Rejection(tx.req).None?
    ensures RowsValid(Ledger.Commit(b, tx).db.users)
  {
    if tx.NewSettings? && tx.uid in b.db.users {
      hide Rejection, SettingsInTable, SettingsInMemory;
      AcceptedKeepsValid(b.db.users[tx.uid], tx.req);
    } else {
      hide Rejection, SettingsInTable, ValidSettings, Insertable;
    }
  }

  lemma ValidAfter(s: Server, e: Move)
    requires AllValid(s) && Allowed(s, e)
    ensures AllValid(Next(s, e))
  {
    hide Perform, Ledger.Commit, ValidSettings, Rejection, Step;
    match e
    case Act(t, x) =>
      CachedStaysValid(s.books.db, s.mem, s.tasks[t], x);
      NextCarriesValid(s.books.db, s.mem, s.tasks[t], x);
      var f := Perform(s.books.db, s.mem, s.tasks[t], x);
      if f.tx.Some? { CommitKeepsValid(s.books, f.tx.value); }
    case ScanAll(t, now, clock, rows) =>
      forall u | u in s.mem.users ensures ValidSettings(Step(s.mem.users[u], Scan(now, clock(u))).user) {
        DeviceEventKeepsValid(s.mem.users[u], Scan(now, clock(u)));
      }
    case Crash(loaded) =>
      forall u | u in loaded.users ensures ValidSettings(loaded.users[u].user) {
        assert IsLoaded(s.books.db, loaded.users[u]);
      }
    case Arrive(_, _) =>
  }

  /** Under any interleaving every delay in the table and in the map is a positive 16-bit number of at least ten
      seconds and every window is absent or two distinct minutes of the day; so no update the handler accepts is
      ever refused by the table. */
  lemma {:induction false} SettingsStayValid(es: seq<Move>)
    requires AllAllowed(COLD, es)
    ensures var s := After(COLD, es);
            && (forall u | u in s.books.db.users :: ValidSettings(s.books.db.users[u]))
            && (forall u | u in s.mem.users :: ValidSettings(s.mem.users[u].user))
            && (forall uid, req | Rejection(req).None? :: UpdateSettingsRow(s.books.db, uid, req).Ok?)
    ensures AllValid(After(COLD, es))
  {
    if es != [] {
      SettingsStayValid(es[..|es| - 1]);
      ValidAfter(After(COLD, es[..|es| - 1]), es[|es| - 1]);
    }
    var db := After(COLD, es).books.db;
    forall uid, req | Rejection(req).None? ensures UpdateSettingsRow(db, uid, req).Ok? {
      if uid in db.users { AcceptedKeepsValid(db.users[uid], req); }
    }
  }
}
