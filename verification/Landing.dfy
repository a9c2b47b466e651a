/** When the stored uptime row is the live one, under any interleaving: which snapshots of the device are still on
    their way to the table, and in which order they land. */
module Landing {
  import opened Base
  import opened Uptime
  import opened Models
  import opened Device
  import opened Memory
  import opened Tables
  import opened Registry
  import opened Concurrent
  import opened History
  import SoleAdmin
  import Ledger
  import Races
  import Runs

  // ----- Whose a row is -----

  predicate CarriesOwn(task: Task) {
    match task
    case Consuming(st, _) => st.uptime.userId == st.user.id
    case AddingToken(st, _) => st.uptime.userId == st.user.id
    case AddingUser(st, _) => st.uptime.userId == st.user.id
    case _ => true
  }

  ghost predicate CachedOwn(users: map<ID, UserState>) {
    forall u | u in users :: users[u].uptime.userId == u
  }

  ghost predicate Owned(s: Server) {
    CachedOwn(s.mem.users) && forall t | t in s.tasks :: CarriesOwn(s.tasks[t])
  }

  lemma NextCarriesOwn(db: Db, m: Mem, task: Task, x: Env)
    requires CarriesOwn(task)
    ensures var next := Perform(db, m, task, x).next; next.Some? ==> CarriesOwn(next.value)
  {
    if CreatesUser(task) {
      hide Entering, Following, CreateState;
    } else if EntersGuards(task) {
      hide Creating, Following, Step, Refused, DeleteInvite, UpdateSettingsRow, UnusedOf;
    } else {
      hide Creating, Entering, DeleteUser, CreateInvite, OnDevice, DropInvites, HasInvite;
    }
  }

  lemma OwnedNext(s: Server, e: Move)
    requires Owned(s) && Allowed(s, e)
    ensures Owned(Next(s, e))
  {
    hide Perform, Ledger.Commit, Continues, WellFormed, Step, ToPersist;
    match e
    case Act(t, x) =>
      NextCarriesOwn(s.books.db, s.mem, s.tasks[t], x);
      RowsContinue(s.books.db, s.mem, s.tasks[t], x);
      forall u | u in Next(s, e).mem.users ensures Next(s, e).mem.users[u].uptime.userId == u {
        if u in s.mem.users { ContinuesOwn(s.mem.users[u].uptime, Next(s, e).mem.users[u].uptime); }
      }
    case ScanAll(_, now, clock, _) =>
      forall u | u in s.mem.users ensures Step(s.mem.users[u], Scan(now, clock(u))).uptime.userId == u {
        StepContinues(s.mem.users[u], Scan(now, clock(u)));
        ContinuesOwn(s.mem.users[u].uptime, Step(s.mem.users[u], Scan(now, clock(u))).uptime);
      }
    case Crash(loaded) =>
      forall u | u in loaded.users ensures loaded.users[u].uptime.userId == u {
        assert IsLoaded(s.books.db, loaded.users[u]);
      }
    case Arrive(_, _) =>
  }

  lemma ContinuesOwn(a: UptimeRow, b: UptimeRow)
    ensures Continues(a, b) ==> b.userId == a.userId && b.id == a.id
  {
  }

  /** What every reachable server satisfies, as far as it matters here. */
  ghost predicate Invariants(s: Server) {
    SoleAdmin.Orderly(s) && Recorded(s) && Owned(s)
  }

  lemma InvariantsNext(s: Server, e: Move)
    requires Invariants(s) && Allowed(s, e)
    ensures Invariants(Next(s, e))
  {
    hide SoleAdmin.Orderly, Recorded, Owned, Next, Allowed;
    SoleAdmin.OrderlyNext(s, e);
    RecordedNext(s, e);
    OwnedNext(s, e);
  }

  lemma {:induction false} AlwaysInvariants(es: seq<Move>)
    requires AllAllowed(COLD, es)
    ensures Invariants(After(COLD, es))
  {
    if es == [] {
      SoleAdmin.AlwaysOrderly(es);
      SeenWasLive(es);
    } else {
      AlwaysInvariants(es[..|es| - 1]);
      InvariantsNext(After(COLD, es[..|es| - 1]), es[|es| - 1]);
    }
  }

  lemma InvariantFacts(s: Server)
    requires Invariants(s)
    ensures SoleAdmin.OwnAccounts(s.books.db) && Recorded(s) && Owned(s)
  {
    hide Recorded, Owned;
  }

  // ----- Snapshots taken and landed -----

  /** Restarts, and steps that enter or remove the user. */
  predicate Replaces(s: Server, e: Move, u: ID) {
    match e
    case Crash(_) => true
    case Act(t, _) =>
      t in s.tasks &&
      (match s.tasks[t]
       case AddingUser(st, _) => st.user.id == u
       case DeletingUser(target, _) => target == u
       case DroppingUser(target, _) => target == u
       case _ => false)
    case _ => false
  }

  /** The device event that a request to be served stands for. */
  function EventOf(ask: Ask, x: Env): Option<Device.Event> {
    match ask
    case AskPing => Some(Device.Event.Ping(x.now, x.at))
    case AskPause => Some(Device.Event.Pause(x.at))
    case AskUnpause => Some(Device.Event.Unpause(x.at))
    case _ => None
  }

  function SnapshotOf(d: UserState, e: Option<Device.Event>): seq<UptimeRow> {
    if e.None? || Refused(d, e.value) then [] else [Step(d, e.value).uptime]
  }

  /** The snapshot of the user's device that a move hands over for writing. */
  function TakenAt(s: Server, e: Move, u: ID): seq<UptimeRow> {
    if u !in s.mem.users then []
    else
      match e
      case Act(t, x) =>
        if t in s.tasks && s.tasks[t].Serving? && s.tasks[t].uid == u
        then SnapshotOf(s.mem.users[u], EventOf(s.tasks[t].ask, x)) else []
      case ScanAll(_, now, clock, _) =>
        if Calls(s.mem.users[u], Scan(now, clock(u))) != [] then [Step(s.mem.users[u], Scan(now, clock(u))).uptime]
          else []
      case _ => []
  }

  /** The row with this id that a move writes to the table. */
  function LandedAt(s: Server, e: Move, r: ID): seq<UptimeRow> {
    if e.Act? && e.t in s.tasks && s.tasks[e.t].Writing? && s.tasks[e.t].rows != [] && !e.x.fails
       && s.tasks[e.t].rows[0].id == r
    then [s.tasks[e.t].rows[0]] else []
  }

  function LastRow(first: UptimeRow, rows: seq<UptimeRow>): UptimeRow {
    if rows == [] then first else rows[|rows| - 1]
  }

  /** The loop reads a clock that is not behind the last change of the user's state. */
  predicate ReadsForward(s: Server, e: Move, u: ID) {
    e.ScanAll? && u in s.mem.users ==> s.mem.users[u].uptime.changedAt <= e.clock(u)
  }

  lemma UptimeOfStep(db: Db, m: Mem, task: Task, x: Env, u: ID)
    requires u in m.users && !(task.AddingUser? && task.st.user.id == u) && !(task.DroppingUser? && task.target == u)
    ensures var users := Perform(db, m, task, x).mem.users;
            && u in users
            && users[u].uptime == LastRow(m.users[u].uptime,
                                          if task.Serving? && task.uid == u
                                          then SnapshotOf(m.users[u], EventOf(task.ask, x)) else [])
  {
    if CreatesUser(task) {
      hide Entering, Following, CreateState, Prepared;
    } else if EntersGuards(task) {
      hide Creating, Following, Step, Refused, DeleteInvite, UpdateSettingsRow, UnusedOf;
    } else {
      UptimeOfLaterStep(db, m, task, x, u);
    }
  }

  lemma UptimeOfLaterStep(db: Db, m: Mem, task: Task, x: Env, u: ID)
    requires !CreatesUser(task) && !EntersGuards(task) && u in m.users && !(task.DroppingUser? && task.target == u)
    ensures var users := Perform(db, m, task, x).mem.users;
            u in users && users[u].uptime == m.users[u].uptime
  {
    hide Creating, Entering, DeleteUser, CreateInvite, HasInvite, Rejection, SettingsInMemory;
  }

  lemma LiveAfter(s: Server, e: Move, u: ID)
    requires Allowed(s, e) && !Replaces(s, e, u) && u in s.mem.users
    requires ReadsForward(s, e, u) || s.mem.users[u].uptime.status.Paused?
    ensures var users := Next(s, e).mem.users;
            u in users && users[u].uptime == LastRow(s.mem.users[u].uptime, TakenAt(s, e, u))
  {
    match e
    case Act(t, x) =>
      UptimeOfStep(s.books.db, s.mem, s.tasks[t], x, u);
      hide Perform;
    case ScanAll(_, now, clock, _) =>
    case Arrive(_, _) =>
  }

  /** A row of the user's device is the stored one with its id. */
  ghost predicate Stores(s: Server, u: ID, r: ID) {
    && u in s.mem.users && s.mem.users[u].uptime.id == r && r in s.books.db.uptimes
  }

  /** The stored row is the live state. */
  ghost predicate StoredIsLive(s: Server, u: ID) {
    && u in s.mem.users && s.mem.users[u].uptime.id in s.books.db.uptimes
    && s.books.db.uptimes[s.mem.users[u].uptime.id] == s.mem.users[u].uptime
  }

  lemma StoredIsOwn(s: Server, u: ID, r: ID)
    requires Recorded(s) && Owned(s) && Stores(s, u, r)
    ensures s.books.db.uptimes[r].id == r && s.books.db.uptimes[r].userId == u && s.books.db.uptimes[r] in s.seen
  {
    assert s.mem.users[u].uptime in Live(s.mem.users);
  }

  lemma TxOnRows(db: Db, m: Mem, task: Task, x: Env)
    ensures var tx := Perform(db, m, task, x).tx;
            && (tx.Some? && tx.value.RemoveUser? ==> task.DeletingUser? && task.target == tx.value.uid)
            && (tx.Some? && tx.value.AddState? ==> CreateState(db, tx.value.st, tx.value.invite).Ok?)
            && (tx.Some? && tx.value.WriteUptime? <==> task.Writing? && task.rows != [] && !x.fails)
            && (tx.Some? && tx.value.WriteUptime? ==> tx.value.row == task.rows[0])
  {
    hide UpdateSettingsRow, DeleteUser, DeleteInvite, CreateInvite, UnusedOf, CreateState, Prepared, Step, Refused,
      Rejection;
    if CreatesUser(task) {
      hide Entering, Following;
    } else if EntersGuards(task) {
      hide Creating, Following;
    } else {
      hide Creating, Entering;
    }
  }

  lemma CommitOnRow(b: Ledger.Books, tx: Ledger.Tx, r: ID)
    requires r in b.db.uptimes && SoleAdmin.OwnAccounts(b.db)
    requires tx.RemoveUser? ==> tx.uid != b.db.uptimes[r].userId
    requires tx.AddState? ==> CreateState(b.db, tx.st, tx.invite).Ok?
    ensures var uptimes := Ledger.Commit(b, tx).db.uptimes;
            && r in uptimes
            && uptimes[r] == if tx.WriteUptime? && tx.row.id == r then Overwritten(b.db.uptimes[r], tx.row)
               else b.db.uptimes[r]
  {
    hide SoleAdmin.OwnAccounts, SettingsInTable;
    match tx
    case RemoveUser(target) => if target in b.db.users { SoleAdmin.OnlyTheTargetGoes(b.db, target); }
    case _ =>
  }

  lemma LandedIsOwn(s: Server, e: Move, u: ID, r: ID)
    requires Recorded(s) && Owned(s) && e.Act? && e.t in s.tasks && Stores(s, u, r) && LandedAt(s, e, r) != []
    ensures Overwritten(s.books.db.uptimes[r], s.tasks[e.t].rows[0]) == s.tasks[e.t].rows[0]
  {
    hide WellFormed;
    StoredIsOwn(s, u, r);
    assert CarriesSeen(s.tasks[e.t], s.seen) && s.tasks[e.t].rows[0] in s.seen;
  }

  lemma StoredAfter(s: Server, e: Move, u: ID, r: ID)
    requires Invariants(s) && Allowed(s, e) && !Replaces(s, e, u) && Stores(s, u, r)
    ensures var uptimes := Next(s, e).books.db.uptimes;
            r in uptimes && uptimes[r] == LastRow(s.books.db.uptimes[r], LandedAt(s, e, r))
  {
    hide Perform, Invariants, SoleAdmin.OwnAccounts, Ledger.Commit, CreateState, FreshDraw, Recorded, Owned,
      Overwritten;
    InvariantFacts(s);
    StoredIsOwn(s, u, r);
    if e.Act? {
      var task := s.tasks[e.t];
      TxOnRows(s.books.db, s.mem, task, e.x);
      var f := Perform(s.books.db, s.mem, task, e.x);
      if f.tx.Some? {
        CommitOnRow(s.books, f.tx.value, r);
        if LandedAt(s, e, r) != [] { LandedIsOwn(s, e, u, r); }
      }
    }
  }

  // ----- Rows in flight -----

  function RowsOf(task: Task): seq<UptimeRow> {
    if task.Writing? then task.rows else []
  }

  ghost predicate InFlight(tasks: map<ID, Task>, row: UptimeRow) {
    exists t | t in tasks :: row in RowsOf(tasks[t])
  }

  /** What a step leaves to be written: the rest of its rows, or the snapshot it takes of its own user. */
  lemma RowsOfNext(db: Db, m: Mem, task: Task, x: Env)
    ensures var next := Perform(db, m, task, x).next;
            && (task.Writing? && task.rows != [] ==> next == Some(Writing(task.rows[1..])))
            && (next.Some? && next.value.Writing? && !task.Writing? ==>
                  task.Serving? && task.uid in m.users
                  && next.value.rows == SnapshotOf(m.users[task.uid], EventOf(task.ask, x)) && |next.value.rows| == 1)
            && (task.Serving? && task.uid in m.users && SnapshotOf(m.users[task.uid], EventOf(task.ask, x)) != [] ==>
                  next == Some(Writing(SnapshotOf(m.users[task.uid], EventOf(task.ask, x)))))
            && (next.Some? && next.value.Writing? && task.Writing? ==> task.rows != [])
  {
    hide UpdateSettingsRow, DeleteUser, DeleteInvite, CreateInvite, UnusedOf, CreateState, Prepared, Step, Refused,
      Rejection;
    if CreatesUser(task) {
      hide Entering, Following;
    } else if EntersGuards(task) {
      hide Creating, Following;
    } else {
      hide Creating, Entering;
    }
  }

  lemma SnapshotKeepsId(d: UserState, e: Option<Device.Event>)
    ensures forall row | row in SnapshotOf(d, e) :: row.id == d.uptime.id
  {
  }

  /** Different users, different rows. */
  lemma OwnIds(s: Server, u: ID, v: ID)
    requires Recorded(s) && Owned(s) && u in s.mem.users && v in s.mem.users && u != v
    ensures s.mem.users[u].uptime.id != s.mem.users[v].uptime.id
  {
    assert s.mem.users[u].uptime in Live(s.mem.users) && s.mem.users[v].uptime in Live(s.mem.users);
  }

  lemma ActBefore(s: Server, o: ID, x: Env, u: ID, row: UptimeRow)
    requires Recorded(s) && Owned(s) && o in s.tasks && u in s.mem.users && row.id == s.mem.users[u].uptime.id
    requires var next := Perform(s.books.db, s.mem, s.tasks[o], x).next; next.Some? && row in RowsOf(next.value)
    ensures row in RowsOf(s.tasks[o]) || row in TakenAt(s, Act(o, x), u)
  {
    hide Perform, SnapshotOf, Recorded, Owned;
    RowsOfNext(s.books.db, s.mem, s.tasks[o], x);
    if s.tasks[o].Serving? {
      SnapshotKeepsId(s.mem.users[s.tasks[o].uid], EventOf(s.tasks[o].ask, x));
      if s.tasks[o].uid != u { OwnIds(s, u, s.tasks[o].uid); }
    }
  }

  lemma ScanBefore(s: Server, e: Move, u: ID, row: UptimeRow)
    requires Recorded(s) && Owned(s) && e.ScanAll? && Allowed(s, e)
    requires u in s.mem.users && row.id == s.mem.users[u].uptime.id && row in e.rows
    ensures row in TakenAt(s, e, u)
  {
    hide Recorded, Owned, Step, Calls, Continues;
    var v :| v in s.mem.users && FellTo(s.mem.users, {}, v, e.now, e.clock, row);
    StepContinues(s.mem.users[v], Scan(e.now, e.clock(v)));
    ContinuesOwn(s.mem.users[v].uptime, row);
    if v != u { OwnIds(s, u, v); }
  }

  /** A row of this device that is in flight was so before, or has just been taken. */
  lemma InFlightBefore(s: Server, e: Move, u: ID, row: UptimeRow)
    requires Invariants(s) && Allowed(s, e) && u in s.mem.users && row.id == s.mem.users[u].uptime.id
    requires InFlight(Next(s, e).tasks, row)
    ensures InFlight(s.tasks, row) || row in TakenAt(s, e, u)
  {
    hide Perform, Invariants, Recorded, Owned, TakenAt, ToPersist;
    InvariantFacts(s);
    var t :| t in Next(s, e).tasks && row in RowsOf(Next(s, e).tasks[t]);
    match e
    case Act(o, x) => if t == o { ActBefore(s, o, x, u, row); }
    case ScanAll(o, _, _, _) => if t == o { ScanBefore(s, e, u, row); }
    case _ =>
  }

  /** What is taken is in flight, and what is in flight stays so unless it lands. */
  lemma InFlightAfter(s: Server, e: Move, u: ID, row: UptimeRow)
    requires Allowed(s, e) && !e.Crash? && !(e.Act? && e.x.fails)
    requires row in TakenAt(s, e, u) || (InFlight(s.tasks, row) && LandedAt(s, e, row.id) != [row])
    ensures InFlight(Next(s, e).tasks, row)
  {
    var tasks := Next(s, e).tasks;
    match e
    case Act(o, x) =>
      RowsOfNext(s.books.db, s.mem, s.tasks[o], x);
      hide Perform, SnapshotOf;
      if row in TakenAt(s, e, u) {
        assert row in RowsOf(tasks[o]);
      } else {
        var t :| t in s.tasks && row in RowsOf(s.tasks[t]);
        assert row in RowsOf(tasks[t]);
      }
    case ScanAll(o, now, clock, rows) =>
      if row in TakenAt(s, e, u) {
        assert FellTo(s.mem.users, {}, u, now, clock, row);
        assert row in RowsOf(tasks[o]);
      } else {
        var t :| t in s.tasks && row in RowsOf(s.tasks[t]);
        assert row in RowsOf(tasks[t]);
      }
    case Arrive(_, _) =>
      var t :| t in s.tasks && row in RowsOf(s.tasks[t]);
      assert row in RowsOf(tasks[t]);
  }

  // ----- The order of the writes -----

  function Taken(s: Server, es: seq<Move>, u: ID): seq<UptimeRow> {
    Runs.Output(Next, (s: Server, e: Move) => TakenAt(s, e, u), s, es)
  }

  function Landed(s: Server, es: seq<Move>, r: ID): seq<UptimeRow> {
    Runs.Output(Next, (s: Server, e: Move) => LandedAt(s, e, r), s, es)
  }

  /** The user is there all along, and the loop's clock does not run back on them. */
  ghost predicate Steady(s: Server, es: seq<Move>, u: ID) {
    es == []
    || (var before := es[..|es| - 1];
        && Steady(s, before, u)
        && !Replaces(After(s, before), es[|es| - 1], u) && ReadsForward(After(s, before), es[|es| - 1], u))
  }

  lemma StoresNext(s: Server, e: Move, u: ID, r: ID)
    requires Invariants(s) && Allowed(s, e) && !Replaces(s, e, u) && ReadsForward(s, e, u) && Stores(s, u, r)
    ensures Invariants(Next(s, e)) && Stores(Next(s, e), u, r)
    ensures Next(s, e).mem.users[u].uptime == LastRow(s.mem.users[u].uptime, TakenAt(s, e, u))
    ensures Next(s, e).books.db.uptimes[r] == LastRow(s.books.db.uptimes[r], LandedAt(s, e, r))
  {
    hide Invariants, Next, Allowed, TakenAt, LandedAt;
    InvariantsNext(s, e);
    LiveAfter(s, e, u);
    StoredAfter(s, e, u, r);
    TakenKeepsId(s, e, u);
  }

  lemma TakenKeepsId(s: Server, e: Move, u: ID)
    requires u in s.mem.users
    ensures forall row | row in TakenAt(s, e, u) :: row.id == s.mem.users[u].uptime.id
  {
    hide SnapshotOf;
    match e
    case Act(t, x) =>
      if t in s.tasks && s.tasks[t].Serving? { SnapshotKeepsId(s.mem.users[u], EventOf(s.tasks[t].ask, x)); }
    case ScanAll(_, now, clock, _) =>
    case _ =>
  }

  lemma {:induction false} LastTakenAndLastLanded(s: Server, es: seq<Move>, u: ID, r: ID)
    requires Invariants(s) && Stores(s, u, r) && AllAllowed(s, es) && Steady(s, es, u)
    ensures var s' := After(s, es);
            && Invariants(s') && Stores(s', u, r)
            && s'.mem.users[u].uptime == LastRow(s.mem.users[u].uptime, Taken(s, es, u))
            && s'.books.db.uptimes[r] == LastRow(s.books.db.uptimes[r], Landed(s, es, r))
  {
    hide Invariants, Next, Allowed, TakenAt, LandedAt, Replaces, ReadsForward;
    if es != [] {
      var before, e := es[..|es| - 1], es[|es| - 1];
      LastTakenAndLastLanded(s, before, u, r);
      StoresNext(After(s, before), e, u, r);
    }
  }

  /** Among whatever other requests: the live state is the last snapshot taken and the stored row the last one landed,
      so the two are equal exactly when those are; in particular when the snapshots have landed in the order they were
      taken and none is on its way. */
  lemma {:induction false} StoredIsLiveIffLastLandedIsLastTaken(prior: seq<Move>, es: seq<Move>, u: ID)
    requires AllAllowed(COLD, prior)
    requires var s := After(COLD, prior); StoredIsLive(s, u) && AllAllowed(s, es) && Steady(s, es, u)
    ensures var s := After(COLD, prior);
            var row := s.mem.users[u].uptime;
            var taken, landed := Taken(s, es, u), Landed(s, es, row.id);
            && u in After(s, es).mem.users && After(s, es).mem.users[u].uptime == LastRow(row, taken)
            && (StoredIsLive(After(s, es), u) <==> LastRow(row, taken) == LastRow(row, landed))
            && (landed == taken ==> StoredIsLive(After(s, es), u))
  {
    hide Invariants, After, AllAllowed, Steady, Taken, Landed;
    var s := After(COLD, prior);
    AlwaysInvariants(prior);
    LastTakenAndLastLanded(s, es, u, s.mem.users[u].uptime.id);
  }

  // ----- One snapshot at a time -----

  /** No row with this id is on its way. */
  ghost predicate NoneInFlight(tasks: map<ID, Task>, r: ID) {
    forall row: UptimeRow | InFlight(tasks, row) :: row.id != r
  }

  predicate NoFailure(es: seq<Move>) {
    forall i | 0 <= i < |es| :: es[i].Act? ==> !es[i].x.fails
  }

  /** The guard: a snapshot of the device is taken only while no row of it is on its way. */
  ghost predicate OneSnapshotAtATime(s: Server, es: seq<Move>, u: ID, r: ID) {
    es == []
    || (var before := es[..|es| - 1];
        && OneSnapshotAtATime(s, before, u, r)
        && (TakenAt(After(s, before), es[|es| - 1], u) != [] ==> NoneInFlight(After(s, before).tasks, r)))
  }

  /** Whatever of the device is on its way is its live state, and if nothing is, that is stored. */
  ghost predicate OnTrack(s: Server, u: ID, r: ID) {
    && Stores(s, u, r)
    && (forall row: UptimeRow | InFlight(s.tasks, row) && row.id == r :: row == s.mem.users[u].uptime)
    && (s.books.db.uptimes[r] == s.mem.users[u].uptime || InFlight(s.tasks, s.mem.users[u].uptime))
  }

  lemma InFlightOnTrack(s: Server, e: Move, u: ID, r: ID, w: UptimeRow)
    requires Invariants(s) && Allowed(s, e) && !Replaces(s, e, u) && ReadsForward(s, e, u) && OnTrack(s, u, r)
    requires TakenAt(s, e, u) != [] ==> NoneInFlight(s.tasks, r)
    requires InFlight(Next(s, e).tasks, w) && w.id == r
    ensures u in Next(s, e).mem.users && w == Next(s, e).mem.users[u].uptime
  {
    hide Invariants, Next, Allowed, TakenAt, InFlight, Replaces, ReadsForward, LandedAt;
    InFlightBefore(s, e, u, w);
    StoresNext(s, e, u, r);
    TakenOnce(s, e, u);
  }

  /** The row last landed, if any, is the live one. */
  lemma LandedOnTrack(s: Server, e: Move, u: ID, r: ID)
    requires OnTrack(s, u, r)
    ensures LandedAt(s, e, r) != [] ==> LandedAt(s, e, r) == [s.mem.users[u].uptime]
  {
    hide LandedAt, InFlight;
    LandedWasInFlight(s, e, r);
  }

  /** The live state is on its way, or it is stored. */
  lemma LiveOnItsWay(s: Server, e: Move, u: ID, r: ID)
    requires Allowed(s, e) && !Replaces(s, e, u) && OnTrack(s, u, r) && !(e.Act? && e.x.fails)
    ensures var row, taken := s.mem.users[u].uptime, TakenAt(s, e, u);
            || InFlight(Next(s, e).tasks, LastRow(row, taken))
            || (taken == [] && LastRow(s.books.db.uptimes[r], LandedAt(s, e, r)) == row)
  {
    NotACrash(s, e, u);
    hide Next, Allowed, Replaces, LandedAt, InFlight, TakenAt;
    TakenOnce(s, e, u);
    var row, taken := s.mem.users[u].uptime, TakenAt(s, e, u);
    if taken != [] {
      assert LastRow(row, taken) in taken;
      InFlightAfter(s, e, u, LastRow(row, taken));
    } else {
      LandedOnTrack(s, e, u, r);
      if LandedAt(s, e, r) == [] && InFlight(s.tasks, row) {
        InFlightAfter(s, e, u, row);
      }
    }
  }

  lemma LiveOnTrack(s: Server, e: Move, u: ID, r: ID)
    requires Invariants(s) && Allowed(s, e) && !Replaces(s, e, u) && ReadsForward(s, e, u) && OnTrack(s, u, r)
    requires !(e.Act? && e.x.fails)
    ensures var s' := Next(s, e);
            && Stores(s', u, r)
            && (s'.books.db.uptimes[r] == s'.mem.users[u].uptime || InFlight(s'.tasks, s'.mem.users[u].uptime))
  {
    hide Invariants, Next, Allowed, TakenAt, InFlight, Replaces, ReadsForward, LandedAt;
    StoresNext(s, e, u, r);
    LiveOnItsWay(s, e, u, r);
  }

  lemma OnTrackNext(s: Server, e: Move, u: ID, r: ID)
    requires Invariants(s) && Allowed(s, e) && !Replaces(s, e, u) && ReadsForward(s, e, u) && OnTrack(s, u, r)
    requires TakenAt(s, e, u) != [] ==> NoneInFlight(s.tasks, r)
    requires !(e.Act? && e.x.fails)
    ensures Invariants(Next(s, e)) && OnTrack(Next(s, e), u, r)
  {
    hide Invariants, Next, Allowed, TakenAt, InFlight, Replaces, ReadsForward, LandedAt;
    InvariantsNext(s, e);
    LiveOnTrack(s, e, u, r);
    forall w: UptimeRow | InFlight(Next(s, e).tasks, w) && w.id == r ensures w == Next(s, e).mem.users[u].uptime {
      InFlightOnTrack(s, e, u, r, w);
    }
  }

  lemma NotACrash(s: Server, e: Move, u: ID)
    requires !Replaces(s, e, u)
    ensures !e.Crash?
  {
  }

  lemma TakenOnce(s: Server, e: Move, u: ID)
    ensures |TakenAt(s, e, u)| <= 1
  {
  }

  lemma LandedWasInFlight(s: Server, e: Move, r: ID)
    ensures LandedAt(s, e, r) == [] || (InFlight(s.tasks, LandedAt(s, e, r)[0]) && LandedAt(s, e, r)[0].id == r)
    ensures |LandedAt(s, e, r)| <= 1
  {
    if LandedAt(s, e, r) != [] {
      assert s.tasks[e.t].rows[0] in RowsOf(s.tasks[e.t]);
    }
  }

  lemma {:induction false} StaysOnTrack(s: Server, es: seq<Move>, u: ID, r: ID)
    requires Invariants(s) && OnTrack(s, u, r) && AllAllowed(s, es) && Steady(s, es, u)
    requires NoFailure(es) && OneSnapshotAtATime(s, es, u, r)
    ensures Invariants(After(s, es)) && OnTrack(After(s, es), u, r)
  {
    hide Invariants, Next, Allowed, OnTrack, TakenAt, Replaces, ReadsForward, NoneInFlight;
    if es != [] {
      var before, e := es[..|es| - 1], es[|es| - 1];
      assert forall i | 0 <= i < |before| :: before[i] == es[i];
      StaysOnTrack(s, before, u, r);
      OnTrackNext(After(s, before), e, u, r);
    }
  }

  /** If every snapshot of a device is taken while no other of it is on its way, then whenever none is, the stored row
      is the live state. */
  lemma {:induction false} OneSnapshotAtATimeKeepsTheRow(prior: seq<Move>, es: seq<Move>, u: ID)
    requires AllAllowed(COLD, prior)
    requires var s := After(COLD, prior);
             && StoredIsLive(s, u) && NoneInFlight(s.tasks, s.mem.users[u].uptime.id)
             && AllAllowed(s, es) && Steady(s, es, u) && NoFailure(es)
             && OneSnapshotAtATime(s, es, u, s.mem.users[u].uptime.id)
    ensures var s := After(COLD, prior);
            NoneInFlight(After(s, es).tasks, s.mem.users[u].uptime.id) ==> StoredIsLive(After(s, es), u)
  {
    hide Invariants, After, AllAllowed, Steady, OneSnapshotAtATime, InFlight;
    var s := After(COLD, prior);
    AlwaysInvariants(prior);
    StaysOnTrack(s, es, u, s.mem.users[u].uptime.id);
  }

  // ----- A pause that stays -----

  /** No failure, no restart, and no later snapshot of the user's device. */
  ghost predicate LeftAlone(s: Server, es: seq<Move>, u: ID) {
    es == []
    || (var before, e := es[..|es| - 1], es[|es| - 1];
        && LeftAlone(s, before, u)
        && !Replaces(After(s, before), e, u) && TakenAt(After(s, before), e, u) == [] && !(e.Act? && e.x.fails))
  }

  /** The request `p` has written the row it took. */
  predicate Written(s: Server, p: ID, row: UptimeRow) {
    p in s.tasks ==> s.tasks[p] != Writing([row])
  }

  /** The device is paused, all that is on its way to its row is that state, and it is stored or `p` still has it to
      write. */
  ghost predicate Sticking(s: Server, u: ID, p: ID, row: UptimeRow) {
    && Stores(s, u, row.id) && s.mem.users[u].uptime == row && row.status.Paused?
    && (forall w: UptimeRow | InFlight(s.tasks, w) && w.id == row.id :: w == row)
    && (Written(s, p, row) ==> s.books.db.uptimes[row.id] == row)
  }

  /** `p` keeps its row until it writes it. */
  lemma WrittenByItself(s: Server, e: Move, p: ID, row: UptimeRow)
    requires Allowed(s, e) && !e.Crash? && !(e.Act? && e.x.fails)
    requires !Written(s, p, row) && Written(Next(s, e), p, row)
    ensures LandedAt(s, e, row.id) == [row]
  {
    hide Perform;
  }

  lemma StickingInFlight(s: Server, e: Move, u: ID, p: ID, row: UptimeRow, w: UptimeRow)
    requires Invariants(s) && Allowed(s, e) && Sticking(s, u, p, row) && TakenAt(s, e, u) == []
    requires InFlight(Next(s, e).tasks, w) && w.id == row.id
    ensures w == row
  {
    hide Invariants, Next, Allowed, TakenAt, InFlight, Written;
    InFlightBefore(s, e, u, w);
  }

  lemma StickingStored(s: Server, e: Move, u: ID, p: ID, row: UptimeRow)
    requires Invariants(s) && Allowed(s, e) && Sticking(s, u, p, row)
    requires !Replaces(s, e, u) && TakenAt(s, e, u) == [] && !(e.Act? && e.x.fails)
    ensures var s' := Next(s, e);
            && Stores(s', u, row.id) && s'.mem.users[u].uptime == row
            && (Written(s', p, row) ==> s'.books.db.uptimes[row.id] == row)
  {
    NotACrash(s, e, u);
    hide Invariants, Next, Allowed, TakenAt, InFlight, Replaces, LandedAt, Written;
    LiveAfter(s, e, u);
    StoredAfter(s, e, u, row.id);
    LandedWasInFlight(s, e, row.id);
    if !Written(s, p, row) && Written(Next(s, e), p, row) {
      WrittenByItself(s, e, p, row);
    }
  }

  lemma StickingNext(s: Server, e: Move, u: ID, p: ID, row: UptimeRow)
    requires Invariants(s) && Allowed(s, e) && Sticking(s, u, p, row)
    requires !Replaces(s, e, u) && TakenAt(s, e, u) == [] && !(e.Act? && e.x.fails)
    ensures Invariants(Next(s, e)) && Sticking(Next(s, e), u, p, row)
  {
    hide Invariants, Next, Allowed, TakenAt, InFlight, Replaces, Written;
    InvariantsNext(s, e);
    StickingStored(s, e, u, p, row);
    forall w: UptimeRow | InFlight(Next(s, e).tasks, w) && w.id == row.id ensures w == row {
      StickingInFlight(s, e, u, p, row, w);
    }
  }

  lemma {:induction false} StaysSticking(s: Server, es: seq<Move>, u: ID, p: ID, row: UptimeRow)
    requires Invariants(s) && Sticking(s, u, p, row) && AllAllowed(s, es) && LeftAlone(s, es, u)
    ensures Invariants(After(s, es)) && Sticking(After(s, es), u, p, row)
  {
    hide Invariants, Next, Allowed, Sticking, TakenAt, Replaces;
    if es != [] {
      StaysSticking(s, es[..|es| - 1], u, p, row);
      StickingNext(After(s, es[..|es| - 1]), es[|es| - 1], u, p, row);
    }
  }

  /** The pause's own critical section. */
  lemma PauseTaken(s: Server, u: ID, p: ID, x: Env)
    requires p in s.tasks && s.tasks[p] == Serving(u, AskPause) && u in s.mem.users
    requires !Refused(s.mem.users[u], Device.Event.Pause(x.at))
    ensures var s' := Next(s, Act(p, x));
            var row := Step(s.mem.users[u], Device.Event.Pause(x.at)).uptime;
            && Allowed(s, Act(p, x)) && s'.books == s.books && s'.tasks == s.tasks[p := Writing([row])]
            && u in s'.mem.users && s'.mem.users[u].uptime == row && row.status.Paused?
               && row.id == s.mem.users[u].uptime.id
  {
    hide Creating, Following;
  }

  function Repeated(e: Move, n: nat): seq<Move> {
    if n == 0 then [] else Repeated(e, n - 1) + [e]
  }

  lemma WritingTakesNothing(s: Server, t: ID, rows: seq<UptimeRow>, y: Env, u: ID, r: ID)
    requires t in s.tasks && s.tasks[t] == Writing(rows) && rows != [] && !y.fails
    ensures var e := Act(t, y);
            && !Replaces(s, e, u) && TakenAt(s, e, u) == [] && LandedAt(s, e, r) == if rows[0].id == r then [rows[0]]
               else []
  {
  }

  lemma OneWrite(s: Server, t: ID, rows: seq<UptimeRow>, y: Env, u: ID, r: ID)
    requires Invariants(s) && Stores(s, u, r) && t in s.tasks && s.tasks[t] == Writing(rows) && rows != [] && !y.fails
    ensures var e := Act(t, y);
            var s' := Next(s, e);
            && Allowed(s, e) && Invariants(s') && Stores(s', u, r) && s'.mem == s.mem
            && s'.tasks == s.tasks[t := Writing(rows[1..])]
            && (rows[0].id == r ==> s'.books.db.uptimes[r] == rows[0])
            && !Replaces(s, e, u) && TakenAt(s, e, u) == []
  {
    hide Invariants, Next, Allowed, TakenAt, Replaces, LandedAt, UpdateUptime;
    assert rows == [rows[0]] + rows[1..];
    Races.WriteLands(s, t, rows[0], rows[1..], y);
    WritingTakesNothing(s, t, rows, y, u, r);
    InvariantsNext(s, Act(t, y));
    StoredAfter(s, Act(t, y), u, r);
  }

  lemma NextMove(s: Server, es: seq<Move>, e: Move, u: ID)
    requires AllAllowed(s, es) && LeftAlone(s, es, u) && Allowed(After(s, es), e)
    requires !Replaces(After(s, es), e, u) && TakenAt(After(s, es), e, u) == [] && !(e.Act? && e.x.fails)
    ensures AllAllowed(s, es + [e]) && LeftAlone(s, es + [e], u) && After(s, es + [e]) == Next(After(s, es), e)
  {
    hide Next, Allowed, Replaces, TakenAt;
    OneMoreMove(s, es, e);
    assert (es + [e])[..|es|] == es;
  }

  lemma NoMovesAlone(s: Server, u: ID)
    ensures AllAllowed(s, []) && LeftAlone(s, [], u) && After(s, []) == s
  {
  }

  /** The writes of a task can all be made in a row. */
  lemma {:induction false} WritesThrough(s: Server, t: ID, rows: seq<UptimeRow>, y: Env, u: ID, r: ID, n: nat)
    requires Invariants(s) && Stores(s, u, r) && t in s.tasks && s.tasks[t] == Writing(rows) && n <= |rows| && !y.fails
    ensures var es := Repeated(Act(t, y), n);
            var s' := After(s, es);
            && AllAllowed(s, es) && LeftAlone(s, es, u) && Invariants(s') && Stores(s', u, r) && s'.mem == s.mem
            && s'.tasks == s.tasks[t := Writing(rows[n..])]
            && (n > 0 && rows[n - 1].id == r ==> s'.books.db.uptimes[r] == rows[n - 1])
  {
    hide Invariants, Next, Allowed, TakenAt, Replaces, After, AllAllowed, LeftAlone;
    if n == 0 {
      NoMovesAlone(s, u);
      assert rows[0..] == rows;
    } else {
      var before := Repeated(Act(t, y), n - 1);
      WritesThrough(s, t, rows, y, u, r, n - 1);
      OneWrite(After(s, before), t, rows[n - 1..], y, u, r);
      NextMove(s, before, Act(t, y), u);
      assert rows[n - 1..][1..] == rows[n..];
    }
  }

  /** Nothing is on its way to the row with this id but the very row `row`. */
  ghost predicate NothingElseInFlight(tasks: map<ID, Task>, row: UptimeRow) {
    forall w: UptimeRow | InFlight(tasks, w) && w.id == row.id :: w == row
  }

  /** However the run goes on, once `p` has written, what is stored is what is live. */
  ghost predicate PauseStays(s: Server, u: ID, p: ID, row: UptimeRow) {
    forall es: seq<Move> | AllAllowed(s, es) && LeftAlone(s, es, u) && Written(After(s, es), p, row) ::
      StoredIsLive(After(s, es), u)
  }

  lemma StaysIfNothingElse(s: Server, u: ID, p: ID, row: UptimeRow)
    requires Invariants(s) && Sticking(s, u, p, row)
    ensures PauseStays(s, u, p, row)
  {
    forall es: seq<Move> | AllAllowed(s, es) && LeftAlone(s, es, u) && Written(After(s, es), p, row)
      ensures StoredIsLive(After(s, es), u)
    {
      StaysSticking(s, es, u, p, row);
      hide After, AllAllowed, LeftAlone, Written, InFlight, Invariants;
    }
  }

  /** Another row on its way can land after the pause's, and then stands in its place. */
  lemma AnotherCanLand(s: Server, u: ID, p: ID, row: UptimeRow, t: ID, k: nat, y: Env) returns (es: seq<Move>)
    requires Invariants(s) && Stores(s, u, row.id) && s.mem.users[u].uptime == row && !y.fails
    requires p in s.tasks && s.tasks[p] == Writing([row]) && t in s.tasks && t != p
    requires s.tasks[t].Writing? && k < |s.tasks[t].rows| && s.tasks[t].rows[k].id == row.id
    ensures AllAllowed(s, es) && LeftAlone(s, es, u) && Written(After(s, es), p, row)
    ensures var s' := After(s, es);
            && Stores(s', u, row.id) && s'.mem == s.mem && s'.books.db.uptimes[row.id] == s.tasks[t].rows[k]
  {
    hide Invariants, Next, Allowed, TakenAt, Replaces, After, AllAllowed;
    var rows := s.tasks[t].rows;
    var first := Repeated(Act(p, y), 1);
    WritesThrough(s, p, [row], y, u, row.id, 1);
    var s1 := After(s, first);
    var second := Repeated(Act(t, y), k + 1);
    WritesThrough(s1, t, rows, y, u, row.id, k + 1);
    RunsConcat(s, first, second);
    LeftAloneConcat(s, first, second, u);
    es := first + second;
  }

  lemma GoesIfAnother(s: Server, u: ID, p: ID, row: UptimeRow, t: ID, k: nat, y: Env)
    requires Invariants(s) && Stores(s, u, row.id) && s.mem.users[u].uptime == row && !y.fails
    requires p in s.tasks && s.tasks[p] == Writing([row]) && t in s.tasks && t != p
    requires s.tasks[t].Writing? && k < |s.tasks[t].rows| && s.tasks[t].rows[k].id == row.id
    requires s.tasks[t].rows[k] != row
    ensures !PauseStays(s, u, p, row)
  {
    hide Invariants, After, AllAllowed, LeftAlone;
    var es := AnotherCanLand(s, u, p, row, t, k, y);
  }

  lemma {:induction false} LeftAloneConcat(s: Server, a: seq<Move>, b: seq<Move>, u: ID)
    requires LeftAlone(s, a, u) && LeftAlone(After(s, a), b, u)
    ensures LeftAlone(s, a + b, u)
  {
    hide Next, TakenAt, Replaces, After;
    if b == [] {
      assert a + b == a;
    } else {
      LeftAloneConcat(s, a, b[..|b| - 1], u);
      RunsConcat(s, a, b[..|b| - 1]);
      assert (a + b)[..|a + b| - 1] == a + b[..|b| - 1];
    }
  }

  /** At the pause's own critical section: nothing else is on its way to the device's row, or only the very same row,
      if and only if in every continuation without failures, restarts and later snapshots of the device the stored
      row is the live one from the moment the pause's write has landed. */
  lemma {:induction false} PauseStaysIffNothingElseInFlight(prior: seq<Move>, u: ID, p: ID, x: Env)
    requires AllAllowed(COLD, prior)
    requires var s := After(COLD, prior);
             && p in s.tasks && s.tasks[p] == Serving(u, AskPause) && u in s.mem.users
             && s.mem.users[u].uptime.id in s.books.db.uptimes
             && !Refused(s.mem.users[u], Device.Event.Pause(x.at))
    ensures var s := After(COLD, prior);
            var row := Step(s.mem.users[u], Device.Event.Pause(x.at)).uptime;
            && Allowed(s, Act(p, x))
            && (NothingElseInFlight(s.tasks, row) <==> PauseStays(Next(s, Act(p, x)), u, p, row))
  {
    hide Invariants, Next, Allowed, After, AllAllowed, PauseStays, NothingElseInFlight, Step, Refused;
    var s := After(COLD, prior);
    var row := Step(s.mem.users[u], Device.Event.Pause(x.at)).uptime;
    AlwaysInvariants(prior);
    PauseTaken(s, u, p, x);
    InvariantsNext(s, Act(p, x));
    if NothingElseInFlight(s.tasks, row) {
      StaysFromTheSection(s, Next(s, Act(p, x)), u, p, row);
    } else {
      GoesFromTheSection(s, Next(s, Act(p, x)), u, p, row, x);
    }
  }

  lemma StaysFromTheSection(s: Server, s': Server, u: ID, p: ID, row: UptimeRow)
    requires Invariants(s') && Stores(s', u, row.id) && s'.mem.users[u].uptime == row && row.status.Paused?
    requires s'.tasks == s.tasks[p := Writing([row])] && NothingElseInFlight(s.tasks, row)
    ensures PauseStays(s', u, p, row)
  {
    hide Invariants, PauseStays;
    forall w: UptimeRow | InFlight(s'.tasks, w) && w.id == row.id ensures w == row {
      var t :| t in s'.tasks && w in RowsOf(s'.tasks[t]);
      if t != p { assert InFlight(s.tasks, w); }
    }
    StaysIfNothingElse(s', u, p, row);
  }

  lemma GoesFromTheSection(s: Server, s': Server, u: ID, p: ID, row: UptimeRow, x: Env)
    requires Invariants(s') && Stores(s', u, row.id) && s'.mem.users[u].uptime == row
    requires p in s.tasks && s.tasks[p].Serving? && s'.tasks == s.tasks[p := Writing([row])]
    requires !NothingElseInFlight(s.tasks, row)
    ensures !PauseStays(s', u, p, row)
  {
    hide Invariants, PauseStays;
    var w: UptimeRow :| InFlight(s.tasks, w) && w.id == row.id && w != row;
    var t :| t in s.tasks && w in RowsOf(s.tasks[t]);
    var k: nat :| k < |s.tasks[t].rows| && s.tasks[t].rows[k] == w;
    GoesIfAnother(s', u, p, row, t, k, x.(fails := false));
  }

  // ----- A pause among pings -----

  /** An unpause of the user is accepted. */
  predicate Unpauses(s: Server, e: Move, u: ID) {
    && e.Act? && e.t in s.tasks && s.tasks[e.t] == Serving(u, AskUnpause) && u in s.mem.users
    && !Refused(s.mem.users[u], Device.Event.Unpause(e.x.at))
  }

  /** `p` fails to write its row. */
  predicate Loses(s: Server, e: Move, p: ID, row: UptimeRow) {
    e.Act? && e.t == p && e.x.fails && !Written(s, p, row)
  }

  /** Pings, scans, settings, further pauses and failures may come; not a restart, an accepted unpause, the user's
      removal, or a failure of the pause's own write. */
  ghost predicate Held(s: Server, es: seq<Move>, u: ID, p: ID, row: UptimeRow) {
    es == []
    || (var before, e := es[..|es| - 1], es[|es| - 1];
        var at := After(s, before);
        && Held(s, before, u, p, row)
        && !Replaces(at, e, u) && !Unpauses(at, e, u) && !Loses(at, e, p, row))
  }

  /** However the run goes on, once `p` has written, the stored status is Paused. */
  ghost predicate PausedForGood(s: Server, u: ID, p: ID, row: UptimeRow) {
    forall es: seq<Move> | AllAllowed(s, es) && Held(s, es, u, p, row) && Written(After(s, es), p, row) ::
      row.id in After(s, es).books.db.uptimes && After(s, es).books.db.uptimes[row.id].status.Paused?
  }

  /** The device is paused, all that is on its way to its row is a paused state, and the row is paused or `p` still has
      its own to write. */
  ghost predicate Frozen(s: Server, u: ID, p: ID, row: UptimeRow) {
    && row.status.Paused? && Stores(s, u, row.id) && s.mem.users[u].uptime.status.Paused?
    && (forall w: UptimeRow | InFlight(s.tasks, w) && w.id == row.id :: w.status.Paused?)
    && (Written(s, p, row) ==> s.books.db.uptimes[row.id].status.Paused?)
  }

  lemma TakenIsPaused(s: Server, e: Move, u: ID)
    requires u in s.mem.users && s.mem.users[u].uptime.status.Paused? && !Unpauses(s, e, u)
    ensures forall w | w in TakenAt(s, e, u) :: w.status.Paused?
  {
  }

  lemma WrittenByNoFailure(s: Server, e: Move, p: ID, row: UptimeRow)
    requires Allowed(s, e) && !e.Crash? && !Loses(s, e, p, row)
    requires !Written(s, p, row) && Written(Next(s, e), p, row)
    ensures LandedAt(s, e, row.id) == [row]
  {
    hide Perform;
  }

  lemma FrozenStored(s: Server, e: Move, u: ID, p: ID, row: UptimeRow)
    requires Invariants(s) && Allowed(s, e) && Frozen(s, u, p, row)
    requires !Replaces(s, e, u) && !Unpauses(s, e, u) && !Loses(s, e, p, row)
    ensures var s' := Next(s, e);
            && Stores(s', u, row.id) && s'.mem.users[u].uptime.status.Paused?
            && (Written(s', p, row) ==> s'.books.db.uptimes[row.id].status.Paused?)
  {
    NotACrash(s, e, u);
    TakenIsPaused(s, e, u);
    hide Invariants, Next, Allowed, TakenAt, InFlight, Replaces, LandedAt, Written, Unpauses, Loses;
    LiveAfter(s, e, u);
    TakenKeepsId(s, e, u);
    TakenOnce(s, e, u);
    StoredAfter(s, e, u, row.id);
    LandedWasInFlight(s, e, row.id);
    if !Written(s, p, row) && Written(Next(s, e), p, row) {
      WrittenByNoFailure(s, e, p, row);
    }
  }

  lemma FrozenInFlight(s: Server, e: Move, u: ID, p: ID, row: UptimeRow, w: UptimeRow)
    requires Invariants(s) && Allowed(s, e) && Frozen(s, u, p, row) && !Unpauses(s, e, u)
    requires InFlight(Next(s, e).tasks, w) && w.id == row.id
    ensures w.status.Paused?
  {
    hide Invariants, Next, Allowed, TakenAt, InFlight, Written, Unpauses;
    InFlightBefore(s, e, u, w);
    TakenIsPaused(s, e, u);
  }

  lemma FrozenNext(s: Server, e: Move, u: ID, p: ID, row: UptimeRow)
    requires Invariants(s) && Allowed(s, e) && Frozen(s, u, p, row)
    requires !Replaces(s, e, u) && !Unpauses(s, e, u) && !Loses(s, e, p, row)
    ensures Invariants(Next(s, e)) && Frozen(Next(s, e), u, p, row)
  {
    hide Invariants, Next, Allowed, InFlight, Replaces, Written, Unpauses, Loses;
    InvariantsNext(s, e);
    FrozenStored(s, e, u, p, row);
    forall w: UptimeRow | InFlight(Next(s, e).tasks, w) && w.id == row.id ensures w.status.Paused? {
      FrozenInFlight(s, e, u, p, row, w);
    }
  }

  lemma {:induction false} StaysFrozen(s: Server, es: seq<Move>, u: ID, p: ID, row: UptimeRow)
    requires Invariants(s) && Frozen(s, u, p, row) && AllAllowed(s, es) && Held(s, es, u, p, row)
    ensures Invariants(After(s, es)) && Frozen(After(s, es), u, p, row)
  {
    hide Invariants, Next, Allowed, Frozen, Replaces, Unpauses, Loses;
    if es != [] {
      StaysFrozen(s, es[..|es| - 1], u, p, row);
      FrozenNext(After(s, es[..|es| - 1]), es[|es| - 1], u, p, row);
    }
  }

  /** Whoever is left alone is held. */
  lemma {:induction false} LeftAloneIsHeld(s: Server, es: seq<Move>, u: ID, p: ID, row: UptimeRow)
    requires LeftAlone(s, es, u)
    ensures Held(s, es, u, p, row)
  {
    hide Next, Allowed, Replaces, After;
    if es != [] {
      LeftAloneIsHeld(s, es[..|es| - 1], u, p, row);
      UnpauseIsTaken(After(s, es[..|es| - 1]), es[|es| - 1], u);
    }
  }

  lemma UnpauseIsTaken(s: Server, e: Move, u: ID)
    ensures Unpauses(s, e, u) ==> TakenAt(s, e, u) != []
  {
  }

  /** Nothing is on its way to the row with this id but paused states. */
  ghost predicate OnlyPausesInFlight(tasks: map<ID, Task>, r: ID) {
    forall w: UptimeRow | InFlight(tasks, w) && w.id == r :: w.status.Paused?
  }

  lemma PausedFromTheSection(s: Server, s': Server, u: ID, p: ID, row: UptimeRow)
    requires Invariants(s') && Stores(s', u, row.id) && s'.mem.users[u].uptime == row && row.status.Paused?
    requires s'.tasks == s.tasks[p := Writing([row])] && OnlyPausesInFlight(s.tasks, row.id)
    ensures PausedForGood(s', u, p, row)
  {
    hide Invariants;
    forall w: UptimeRow | InFlight(s'.tasks, w) && w.id == row.id ensures w.status.Paused? {
      var t :| t in s'.tasks && w in RowsOf(s'.tasks[t]);
      if t != p { assert InFlight(s.tasks, w); }
    }
    forall es: seq<Move> | AllAllowed(s', es) && Held(s', es, u, p, row) && Written(After(s', es), p, row)
      ensures row.id in After(s', es).books.db.uptimes && After(s', es).books.db.uptimes[row.id].status.Paused?
    {
      hide After, AllAllowed, Held, Written, InFlight;
      StaysFrozen(s', es, u, p, row);
    }
  }

  lemma UndoneFromTheSection(s: Server, s': Server, u: ID, p: ID, row: UptimeRow, x: Env)
    requires Invariants(s') && Stores(s', u, row.id) && s'.mem.users[u].uptime == row
    requires p in s.tasks && s.tasks[p].Serving? && s'.tasks == s.tasks[p := Writing([row])]
    requires !OnlyPausesInFlight(s.tasks, row.id)
    ensures !PausedForGood(s', u, p, row)
  {
    hide Invariants;
    var w: UptimeRow :| InFlight(s.tasks, w) && w.id == row.id && !w.status.Paused?;
    var t :| t in s.tasks && w in RowsOf(s.tasks[t]);
    var k: nat :| k < |s.tasks[t].rows| && s.tasks[t].rows[k] == w;
    var es := AnotherCanLand(s', u, p, row, t, k, x.(fails := false));
    hide After, AllAllowed, LeftAlone, Held, InFlight, Written;
    LeftAloneIsHeld(s', es, u, p, row);
  }

  /** At the pause's own critical section: nothing but paused states of the device is on its way to its row, if and only
      if, whatever pings, scans, settings and failures come, the stored status is Paused from the moment the pause's
      write has landed until an unpause. */
  lemma {:induction false} PausedForGoodIffOnlyPausesInFlight(prior: seq<Move>, u: ID, p: ID, x: Env)
    requires AllAllowed(COLD, prior)
    requires var s := After(COLD, prior);
             && p in s.tasks && s.tasks[p] == Serving(u, AskPause) && u in s.mem.users
             && s.mem.users[u].uptime.id in s.books.db.uptimes
             && !Refused(s.mem.users[u], Device.Event.Pause(x.at))
    ensures var s := After(COLD, prior);
            var row := Step(s.mem.users[u], Device.Event.Pause(x.at)).uptime;
            && Allowed(s, Act(p, x))
            && (OnlyPausesInFlight(s.tasks, row.id) <==> PausedForGood(Next(s, Act(p, x)), u, p, row))
  {
    hide Invariants, Next, Allowed, After, AllAllowed, PausedForGood, OnlyPausesInFlight, Step, Refused;
    var s := After(COLD, prior);
    var row := Step(s.mem.users[u], Device.Event.Pause(x.at)).uptime;
    AlwaysInvariants(prior);
    PauseTaken(s, u, p, x);
    InvariantsNext(s, Act(p, x));
    if OnlyPausesInFlight(s.tasks, row.id) {
      PausedFromTheSection(s, Next(s, Act(p, x)), u, p, row);
    } else {
      UndoneFromTheSection(s, Next(s, Act(p, x)), u, p, row, x);
    }
  }
}
