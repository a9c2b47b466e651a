/** The server with any number of requests in flight.

    Every database transaction and every critical section on a map is one step, and steps of different requests
    interleave freely; so do the scans, the deferred uptime writes, and restarts, which drop all that is in flight.
    Any transaction and any write may fail. A task is a request's next step together with what it remembers. */
module Concurrent {
  import opened Base
  import opened Uptime
  import opened Models
  import opened Device
  import opened Memory
  import opened Tables
  import opened Registry
  import Ledger
  import Runs

  datatype Ask =
    | AskInvite
    | AskDropInvite(id: ID)
    | AskDropUser(target: ID)
    | AskToken
    | AskSettings(req: UpdateSettings)
    | AskLanguage(code: string)
    | AskEnabled(on: bool)
    | AskPing
    | AskPause
    | AskUnpause

  predicate AdminOnly(a: Ask) {
    a.AskInvite? || a.AskDropInvite? || a.AskDropUser?
  }

  datatype Task =
    // create_user without an invite; all but the first hold init_lock
    | BootWaiting(o: NewUserReq)
    | BootHolding(o: NewUserReq)
    | BootAllowed(o: NewUserReq)
    // create_user with an invite
    | JoinStart(o: NewUserReq)
    | JoinFound(o: NewUserReq, invite: ID)
    | Consuming(st: UserState, token: string)
    // add_state
    | AddingToken(st: UserState, boot: bool)
    | AddingUser(st: UserState, boot: bool)
    // the request guards
    | Resolving(token: string, ask: Ask)
    | CheckingAdmin(uid: ID, ask: Ask)
    | Serving(uid: ID, ask: Ask)
    // create_invite
    | StoringInvite(uid: ID)
    | Listing(inv: Invite)
    | Counting(uid: ID, delta: int)
    // delete_invite
    | Unlisting(uid: ID, id: ID)
    // delete_user
    | DeletingUser(target: ID, ids: set<ID>)
    | DroppingUser(target: ID, ids: set<ID>)
    | DroppingToken(token: string, ids: set<ID>)
    | DroppingInvites(ids: set<ID>)
    // regenerate_token
    | Renaming(uid: ID, token: string)
    | Swapping(uid: ID, was: string, token: string)
    // the settings handlers
    | Adopting(uid: ID, req: UpdateSettings)
    | Speaking(uid: ID, code: string)
    | Enabling(uid: ID, ntfyId: ID, on: bool)
    | Enabled(uid: ID, on: bool)
    // snapshots on their way to the table
    | Writing(rows: seq<UptimeRow>)

  /** What a step takes from outside: a failing database, drawn ids and tokens, the clock. */
  datatype Env = Env(fails: bool, drawn: Drawn, inviteId: ID, token: string, now: Time, at: Time)

  /** What a step does: the new maps, the transaction it commits, and how the request goes on. */
  datatype Effect = Effect(mem: Mem, tx: Option<Ledger.Tx>, next: Option<Task>)

  function Done(m: Mem): Effect {
    Effect(m, None, None)
  }

  function Go(m: Mem, next: Task): Effect {
    Effect(m, None, Some(next))
  }

  function Attempt(m: Mem, x: Env, tx: Ledger.Tx, ok: bool, next: Option<Task>): Effect {
    if x.fails || !ok then Done(m) else Effect(m, Some(tx), next)
  }

  /** `create_user`. */
  function Creating(db: Db, m: Mem, task: Task, x: Env): Effect
    requires CreatesUser(task)
  {
    match task
    case BootWaiting(o) => Go(m, BootHolding(o))
    case BootHolding(o) => if m.users != map[] || o.userType != Admin then Done(m) else Go(m, BootAllowed(o))
    case BootAllowed(o) =>
      (match Prepared(o, x.drawn)
       case None => Done(m)
       case Some(st) =>
         Attempt(m, x, Ledger.AddState(st, None), CreateState(db, st, None).Ok?, Some(AddingToken(st, true))))
    case JoinStart(o) =>
      if o.invite.None? || o.invite.value !in m.inviteTokens then Done(m)
      else Go(m, JoinFound(o, m.inviteTokens[o.invite.value]))
    case JoinFound(o, invite) =>
      (match Prepared(o, x.drawn)
       case None => Done(m)
       case Some(st) =>
         Attempt(m, x, Ledger.AddState(st, Some(invite)), CreateState(db, st, Some(invite)).Ok?,
                 Some(Consuming(st, if o.invite.Some? then o.invite.value else ""))))
    case Consuming(st, token) => Go(DropInviteToken(m, token), AddingToken(st, false))
    case AddingToken(st, boot) => Go(AddToken(m, st), AddingUser(st, boot))
    case AddingUser(st, _) => Done(AddUser(m, st))
  }

  /** The first step after the guards. */
  function First(db: Db, m: Mem, uid: ID, ask: Ask, x: Env): Effect {
    match ask
    case AskInvite =>
      if uid !in m.users || m.users[uid].user.invitesUsed >= m.users[uid].user.invitesLimit then Done(m)
      else Go(m, StoringInvite(uid))
    case AskDropInvite(id) =>
      Attempt(m, x, Ledger.RemoveInvite(id, uid), DeleteInvite(db, id, uid).1 > 0, Some(Unlisting(uid, id)))
    case AskDropUser(target) =>
      if uid == target then Done(m) else Go(m, DeletingUser(target, if x.fails then {} else UnusedOf(db, target)))
    case AskToken => Attempt(m, x, Ledger.NewToken(uid, x.token), true, Some(Renaming(uid, x.token)))
    case AskSettings(req) =>
      Attempt(m, x, Ledger.NewSettings(uid, req), Rejection(req).None? && UpdateSettingsRow(db, uid, req).Ok?,
              Some(Adopting(uid, req)))
    case AskLanguage(code) => Attempt(m, x, Ledger.NewLanguage(uid, code), LanguageAccepted(code),
      Some(Speaking(uid, code)))
    case AskEnabled(on) => if uid !in m.users then Done(m) else Go(m, Enabling(uid, m.users[uid].ntfy.id, on))
    case AskPing => Snapshot(m, uid, Event.Ping(x.now, x.at))
    case AskPause => Snapshot(m, uid, Event.Pause(x.at))
    case AskUnpause => Snapshot(m, uid, Event.Unpause(x.at))
  }

  /** A pause or unpause that is refused is not written. */
  function Snapshot(m: Mem, uid: ID, e: Event): Effect {
    if uid !in m.users || Refused(m.users[uid], e) then Done(m)
    else Go(OnDevice(m, uid, e), Writing([Step(m.users[uid], e).uptime]))
  }

  /** The later steps of a request that passed the guards. */
  function Following(db: Db, m: Mem, task: Task, x: Env): Effect
    requires !CreatesUser(task) && !EntersGuards(task)
  {
    match task
    case StoringInvite(uid) =>
      var inv := NewInvite(x.inviteId, uid, x.token, x.now);
      Attempt(m, x, Ledger.AddInvite(inv), CreateInvite(db, inv).Ok?, Some(Listing(inv)))
    case Listing(inv) => Go(AddInviteToken(m, inv), Counting(inv.ownerId, 1))
    case Counting(uid, delta) => Done(BumpUsed(m, uid, delta))
    case Unlisting(uid, id) => Effect(DropInvites(m, {id}), None, if HasInvite(m, id) then Some(Counting(uid, -1))
      else None)
    case DeletingUser(target, ids) =>
      Attempt(m, x, Ledger.RemoveUser(target), DeleteUser(db, target).Ok?, Some(DroppingUser(target, ids)))
    case DroppingUser(target, ids) =>
      if target in m.users then Go(DropUser(m, target), DroppingToken(m.users[target].user.accessToken, ids))
      else Go(m, DroppingInvites(ids))
    case DroppingToken(token, ids) => Go(DropToken(m, token), DroppingInvites(ids))
    case DroppingInvites(ids) => Done(DropInvites(m, ids))
    case Renaming(uid, token) =>
      if uid !in m.users then Done(m)
      else
        var st := m.users[uid];
        Go(m.(users := m.users[uid := st.(user := st.user.(accessToken := token))]),
          Swapping(uid, st.user.accessToken, token))
    case Swapping(uid, was, token) => Done(m.(tokens := (m.tokens - {was})[token := uid]))
    case Adopting(uid, req) => Done(OnDevice(m, uid, Event.Settings(req, x.at)))
    case Speaking(uid, code) =>
      Done(if uid in m.users
           then m.(users := m.users[uid := m.users[uid].(user := m.users[uid].user.(languageCode := code))]) else m)
    case Enabling(uid, ntfyId, on) => Attempt(m, x, Ledger.NewEnabled(ntfyId, on), true, Some(Enabled(uid, on)))
    case Enabled(uid, on) =>
      Done(if uid in m.users
           then m.(users := m.users[uid := m.users[uid].(ntfy := m.users[uid].ntfy.(enabled := on))]) else m)
    case Writing(rows) =>
      if rows == [] then Done(m)
      else Effect(m, if x.fails then None else Some(Ledger.WriteUptime(rows[0])), Some(Writing(rows[1..])))
  }

  predicate CreatesUser(task: Task) {
    task.BootWaiting? || task.BootHolding? || task.BootAllowed? || task.JoinStart? || task.JoinFound? || task.Consuming?
    || task.AddingToken? || task.AddingUser?
  }

  predicate EntersGuards(task: Task) {
    task.Resolving? || task.CheckingAdmin? || task.Serving?
  }

  /** The request guards and the first step of what they let through. */
  function Entering(db: Db, m: Mem, task: Task, x: Env): Effect
    requires EntersGuards(task)
  {
    match task
    case Resolving(token, ask) =>
      if token !in m.tokens then Done(m)
      else Go(m, if AdminOnly(ask) then CheckingAdmin(m.tokens[token], ask) else Serving(m.tokens[token], ask))
    case CheckingAdmin(uid, ask) =>
      if uid in m.users && m.users[uid].user.userType == Admin then Go(m, Serving(uid, ask)) else Done(m)
    case Serving(uid, ask) => First(db, m, uid, ask, x)
  }

  function Perform(db: Db, m: Mem, task: Task, x: Env): Effect {
    if CreatesUser(task) then Creating(db, m, task, x)
    else if EntersGuards(task) then Entering(db, m, task, x)
    else Following(db, m, task, x)
  }

  // ----- The machine -----

  /** Besides the tables, with their books, and the maps: the holder of `init_lock`, the tasks, every admin ever
      stored, every uptime state a device ever had, every access and invite token ever drawn with its user or invite,
      and every user's account at the ntfy server. The last five are history, which no step looks at. */
  datatype Server = Server(
    books: Ledger.Books,
    mem: Mem,
    lock: Option<ID>,
    tasks: map<ID, Task>,
    admins: set<ID>,
    seen: set<UptimeRow>,
    issued: map<string, ID>,
    issuedInvites: map<string, ID>,
    accounts: map<ID, ID>)

  const COLD := Server(Ledger.EMPTY_BOOKS, EMPTY_MEM, None, map[], {}, {}, map[], map[], map[])

  predicate HoldsLock(task: Task) {
    match task
    case BootHolding(_) => true
    case BootAllowed(_) => true
    case AddingToken(_, boot) => boot
    case AddingUser(_, boot) => boot
    case _ => false
  }

  /** The states devices are in. */
  function Live(users: map<ID, UserState>): set<UptimeRow> {
    set u | u in users :: users[u].uptime
  }

  function NewAdmins(tx: Ledger.Tx): set<ID> {
    if tx.AddState? && tx.st.user.userType == Admin then {tx.st.user.id} else {}
  }

  function NewRows(tx: Ledger.Tx): set<UptimeRow> {
    if tx.AddState? then {tx.st.uptime} else {}
  }

  function NewTokens(tx: Ledger.Tx): map<string, ID> {
    match tx
    case AddState(st, _) => map[st.user.accessToken := st.user.id]
    case NewToken(uid, token) => map[token := uid]
    case _ => map[]
  }

  function NewInviteTokens(tx: Ledger.Tx): map<string, ID> {
    if tx.AddInvite? then map[tx.inv.token := tx.inv.id] else map[]
  }

  function NewAccounts(tx: Ledger.Tx): map<ID, ID> {
    if tx.AddState? then map[tx.st.user.id := tx.st.ntfy.id] else map[]
  }

  function Apply(s: Server, t: ID, f: Effect): Server {
    Server(
      if f.tx.Some? then Ledger.Commit(s.books, f.tx.value) else s.books,
      f.mem,
      if f.next.Some? && HoldsLock(f.next.value) then Some(t) else if s.lock == Some(t) then None else s.lock,
      if f.next.Some? then s.tasks[t := f.next.value] else s.tasks - {t},
      s.admins + (if f.tx.Some? then NewAdmins(f.tx.value) else {}),
      s.seen + Live(f.mem.users) + (if f.tx.Some? then NewRows(f.tx.value) else {}),
      s.issued + (if f.tx.Some? then NewTokens(f.tx.value) else map[]),
      s.issuedInvites + (if f.tx.Some? then NewInviteTokens(f.tx.value) else map[]),
      s.accounts + (if f.tx.Some? then NewAccounts(f.tx.value) else map[]))
  }

  datatype Move =
    | Arrive(t: ID, task: Task)
    | Act(t: ID, x: Env)
    | ScanAll(t: ID, now: Time, clock: ID -> Time, rows: seq<UptimeRow>)
    | Crash(loaded: Mem)

  function Next(s: Server, e: Move): Server {
    match e
    case Arrive(t, task) => s.(tasks := s.tasks[t := task])
    case Act(t, x) => if t in s.tasks then Apply(s, t, Perform(s.books.db, s.mem, s.tasks[t], x)) else s
    case ScanAll(t, now, clock, rows) =>
      var users := Scanned(s.mem.users, now, clock);
      s.(mem := s.mem.(users := users), tasks := s.tasks[t := Writing(rows)], seen := s.seen + Live(users))
    case Crash(loaded) => s.(mem := loaded, lock := None, tasks := map[])
  }

  predicate Arrives(task: Task) {
    match task
    case BootWaiting(o) => o.invite.None?
    case JoinStart(o) => o.invite.Some?
    case Resolving(_, _) => true
    case _ => false
  }

  /** Ids and tokens are drawn at random and never come twice. */
  predicate FreshDraw(s: Server, tx: Ledger.Tx) {
    && Ledger.Fresh(s.books, tx)
    && (tx.AddState? ==> forall row | row in s.seen :: row.id != tx.st.uptime.id)
    && (tx.AddState? ==> tx.st.user.id !in s.accounts && forall u | u in s.accounts :: s.accounts[u] != tx.st.ntfy.id)
    && (forall token | token in NewTokens(tx) :: token !in s.issued)
    && (forall token | token in NewInviteTokens(tx) :: token !in s.issuedInvites)
  }

  /** What can happen next. The lock is taken only when it is free. */
  ghost predicate Allowed(s: Server, e: Move) {
    match e
    case Arrive(t, task) => t !in s.tasks && Arrives(task)
    case Act(t, x) =>
      && t in s.tasks && (s.tasks[t].BootWaiting? ==> s.lock.None?)
      && var tx := Perform(s.books.db, s.mem, s.tasks[t], x).tx; (tx.Some? ==> FreshDraw(s, tx.value))
    case ScanAll(t, now, clock, rows) => t !in s.tasks && ToPersist(rows, s.mem.users, {}, now, clock)
    case Crash(loaded) => IsLoadOf(s.books.db, loaded)
  }

  function After(s: Server, es: seq<Move>): Server {
    Runs.Fold(Next, s, es)
  }

  ghost predicate AllAllowed(s: Server, es: seq<Move>) {
    es == [] || (AllAllowed(s, es[..|es| - 1]) && Allowed(After(s, es[..|es| - 1]), es[|es| - 1]))
  }

  lemma OneMoreMove(s: Server, moves: seq<Move>, e: Move)
    ensures After(s, moves + [e]) == Next(After(s, moves), e)
    ensures AllAllowed(s, moves + [e]) <==> AllAllowed(s, moves) && Allowed(After(s, moves), e)
  {
    hide Next, Allowed;
    assert (moves + [e])[..|moves|] == moves;
  }

  lemma NoMoves(s: Server)
    ensures After(s, []) == s && AllAllowed(s, [])
  {
  }

  lemma {:induction false} RunsConcat(s: Server, a: seq<Move>, b: seq<Move>)
    ensures After(s, a + b) == After(After(s, a), b)
    ensures AllAllowed(s, a + b) <==> AllAllowed(s, a) && AllAllowed(After(s, a), b)
  {
    hide Next, Allowed;
    if b == [] {
      assert a + b == a;
    } else {
      var before, e := b[..|b| - 1], b[|b| - 1];
      RunsConcat(s, a, before);
      OneMoreMove(s, a + before, e);
      OneMoreMove(After(s, a), before, e);
      assert a + b == a + before + [e] && b == before + [e];
    }
  }
}
