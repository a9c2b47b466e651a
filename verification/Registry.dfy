/** The handlers as atomic steps on tables and memory, and the agreement of the two.

    Requests are served one after another here: each handler runs from its guards to its last memory update before
    the next begins, and no uptime write fails. Concurrent drops both assumptions. */
module Registry {
  import opened Base
  import opened Uptime
  import opened Models
  import opened Notifications
  import opened Device
  import opened Memory
  import opened Tables
  import Runs

  datatype World = World(db: Db, mem: Mem)

  const EMPTY_WORLD := World(EMPTY_DB, EMPTY_MEM)

  datatype NewUserReq = NewUserReq(
    invite: Option<string>,
    userType: UserType,
    invitesLimit: int,
    upDelay: Option<nat>,
    ntfyEnabled: bool,
    languageCode: string)

  /** What `create_user` draws or receives from outside: ids, a token, and the ntfy account unless that failed. The
      account's flag is the one that was asked for. */
  datatype Drawn = Drawn(userId: ID, uptimeId: ID, token: string, ntfy: Option<NtfyUser>, now: Time)

  predicate LanguageAccepted(code: string) {
    2 <= |code| <= 3 && forall i | 0 <= i < |code| :: 'a' <= code[i] <= 'z'
  }

  /** The state `create_user` goes on to store, if the request passes the checks and the ntfy account was made. */
  function Prepared(o: NewUserReq, drawn: Drawn): Option<UserState> {
    if !DelayAccepted(o.upDelay) || !LanguageAccepted(o.languageCode) || drawn.ntfy.None? then None
    else
      var (kind, limit) := if o.invite.Some? then (Normal, 0) else (o.userType, o.invitesLimit);
      var user := NewUser(drawn.userId, kind, limit, o.upDelay, o.languageCode, drawn.ntfy.value.id, drawn.token,
        drawn.now);
      var account := drawn.ntfy.value.(enabled := o.ntfyEnabled);
      Some(UserState(user, account, NewRow(drawn.uptimeId, user.id, drawn.now)))
  }

  function CreateUser(w: World, o: NewUserReq, drawn: Drawn): World {
    if o.invite.Some? && o.invite.value !in w.mem.inviteTokens then w
    else if o.invite.None? && (w.mem.users != map[] || o.userType != Admin) then w
    else
      var inviteId := if o.invite.Some? then Some(w.mem.inviteTokens[o.invite.value]) else None;
      match Prepared(o, drawn)
      case None => w
      case Some(st) =>
        match CreateState(w.db, st, inviteId)
        case Err(_) => w
        case Ok(db) =>
          var m := if o.invite.Some? then DropInviteToken(w.mem, o.invite.value) else w.mem;
          World(db, AddUser(AddToken(m, st), st))
  }

  function DropInviteToken(m: Mem, token: string): Mem {
    m.(inviteTokens := m.inviteTokens - {token})
  }

  /** `BAuth`. */
  function Caller(m: Mem, token: string): Option<ID> {
    if token in m.tokens then Some(m.tokens[token]) else None
  }

  /** `AdminAuth`. */
  function AdminCaller(m: Mem, token: string): Option<ID> {
    if token in m.tokens && m.tokens[token] in m.users && m.users[m.tokens[token]].user.userType == Admin
    then Some(m.tokens[token]) else None
  }

  function MakeInvite(w: World, owner: ID, id: ID, token: string, now: Time): World {
    if owner !in w.mem.users || w.mem.users[owner].user.invitesUsed >= w.mem.users[owner].user.invitesLimit then w
    else
      var inv := NewInvite(id, owner, token, now);
      match CreateInvite(w.db, inv)
      case Err(_) => w
      case Ok(db) => World(db, BumpUsed(AddInviteToken(w.mem, inv), owner, 1))
  }

  function DropInvite(w: World, admin: ID, id: ID): World {
    var (db, deleted) := DeleteInvite(w.db, id, admin);
    if deleted == 0 then World(db, w.mem)
    else
      var m := DropInvites(w.mem, {id});
      World(db, if HasInvite(w.mem, id) then BumpUsed(m, admin, -1) else m)
  }

  function RemoveUserAs(w: World, admin: ID, uid: ID): World {
    if admin == uid then w
    else match DeleteUser(w.db, uid)
         case Err(_) => w
         case Ok(db) => World(db, DropInvites(RemoveUser(w.mem, uid), UnusedOf(w.db, uid)))
  }

  function Regenerate(w: World, uid: ID, token: string): World {
    var db := SetToken(w.db, uid, token);
    if uid !in w.mem.users then World(db, w.mem)
    else
      var st := w.mem.users[uid];
      var m := w.mem.(users := w.mem.users[uid := st.(user := st.user.(accessToken := token))]);
      World(db, m.(tokens := (m.tokens - {st.user.accessToken})[token := uid]))
  }

  function ChangeSettings(w: World, uid: ID, req: UpdateSettings): World {
    if Rejection(req).Some? then w
    else match UpdateSettingsRow(w.db, uid, req)
         case Err(_) => w
         case Ok(db) => World(db, OnDevice(w.mem, uid, Settings(req, 0)))
  }

  function ChangeLanguage(w: World, uid: ID, code: string): World {
    if !LanguageAccepted(code) then w
    else
      var m := w.mem;
      World(SetLanguage(w.db, uid, code),
            if uid in m.users
            then m.(users := m.users[uid := m.users[uid].(user := m.users[uid].user.(languageCode := code))]) else m)
  }

  function ChangeEnabled(w: World, uid: ID, enabled: bool): World {
    if uid !in w.mem.users then w
    else
      var st := w.mem.users[uid];
      World(SetEnabled(w.db, st.ntfy.id, enabled),
            w.mem.(users := w.mem.users[uid := st.(ntfy := st.ntfy.(enabled := enabled))]))
  }

  predicate Refused(d: UserState, e: Event) {
    match e
    case Pause(_) => PauseResult(d.uptime).Err?
    case Unpause(at) => UnpauseResult(d.uptime, at).Err?
    case _ => false
  }

  /** Ping, pause or unpause, followed by the write of the snapshot; a refused pause or unpause writes nothing. */
  function DeviceAndWrite(w: World, uid: ID, e: Event): World {
    if uid !in w.mem.users || Refused(w.mem.users[uid], e) then w
    else
      var m := OnDevice(w.mem, uid, e);
      World(UpdateUptime(w.db, m.users[uid].uptime), m)
  }

  function WriteAll(db: Db, rows: seq<UptimeRow>): Db {
    Runs.Fold(UpdateUptime, db, rows)
  }

  function ScanAndWrite(w: World, now: Time, clock: ID -> Time, rows: seq<UptimeRow>): World {
    World(WriteAll(w.db, rows), w.mem.(users := Scanned(w.mem.users, now, clock)))
  }

  // ----- Agreement -----

  ghost predicate UsersAgree(rows: map<ID, User>, users: map<ID, UserState>) {
    users.Keys == rows.Keys && forall u | u in users :: users[u].user == rows[u] && rows[u].id == u
  }

  /** Every user has exactly one ntfy row, and every ntfy row one user. */
  ghost predicate NtfyAgree(ntfy: map<ID, NtfyUser>, users: map<ID, UserState>) {
    && (forall u | u in users ::
          && users[u].ntfy.id == users[u].user.ntfyId
          && users[u].ntfy.id in ntfy && ntfy[users[u].ntfy.id] == users[u].ntfy)
    && (forall n | n in ntfy :: exists u | u in users :: users[u].ntfy.id == n)
    && (forall u, v | u in users && v in users && u != v :: users[u].ntfy.id != users[v].ntfy.id)
  }

  /** Every user has exactly one uptime row, equal to the cached state, and every uptime row a user. */
  ghost predicate UptimesAgree(uptimes: map<ID, UptimeRow>, users: map<ID, UserState>) {
    && (forall u | u in users ::
          users[u].uptime.userId == u && users[u].uptime.id in uptimes
            && uptimes[users[u].uptime.id] == users[u].uptime)
    && (forall r | r in uptimes :: uptimes[r].userId in users && users[uptimes[r].userId].uptime.id == r)
  }

  /** The token map is the exact inverse of the users' access tokens. */
  ghost predicate TokensAgree(tokens: map<string, ID>, users: map<ID, UserState>) {
    && (forall u | u in users :: users[u].user.accessToken in tokens && tokens[users[u].user.accessToken] == u)
    && (forall t | t in tokens :: tokens[t] in users && users[tokens[t]].user.accessToken == t)
  }

  /** The invite map holds exactly the unused invites, by token. */
  ghost predicate InvitesAgree(owners: set<ID>, invites: map<ID, Invite>, inviteTokens: map<string, ID>) {
    && (forall i | i in invites ::
          && invites[i].id == i && invites[i].ownerId in owners
          && (!invites[i].isUsed ==> invites[i].token in inviteTokens && inviteTokens[invites[i].token] == i))
    && (forall t | t in inviteTokens ::
          inviteTokens[t] in invites && !invites[inviteTokens[t]].isUsed && invites[inviteTokens[t]].token == t)
  }

  ghost predicate Agrees(w: World) {
    && UsersAgree(w.db.users, w.mem.users)
    && NtfyAgree(w.db.ntfy, w.mem.users)
    && UptimesAgree(w.db.uptimes, w.mem.users)
    && TokensAgree(w.mem.tokens, w.mem.users)
    && InvitesAgree(w.db.users.Keys, w.db.invites, w.mem.inviteTokens)
  }

  datatype Request =
    | ReqCreateUser(o: NewUserReq, drawn: Drawn)
    | ReqCreateInvite(token: string, id: ID, inviteToken: string, now: Time)
    | ReqDeleteInvite(token: string, id: ID)
    | ReqDeleteUser(token: string, uid: ID)
    | ReqRegenerate(token: string, newToken: string)
    | ReqSettings(token: string, req: UpdateSettings)
    | ReqLanguage(token: string, code: string)
    | ReqEnabled(token: string, enabled: bool)
    | ReqPing(token: string, wall: Time, at: Time)
    | ReqPause(token: string, at: Time)
    | ReqUnpause(token: string, at: Time)
    | ReqScan(now: Time, clock: ID -> Time, rows: seq<UptimeRow>)
    | Restart(loaded: Mem)

  function Handle(w: World, r: Request): World {
    match r
    case ReqCreateUser(o, drawn) => CreateUser(w, o, drawn)
    case ReqCreateInvite(token, id, inviteToken, now) =>
      (match AdminCaller(w.mem, token) case None => w case Some(uid) => MakeInvite(w, uid, id, inviteToken, now))
    case ReqDeleteInvite(token, id) =>
      (match AdminCaller(w.mem, token) case None => w case Some(uid) => DropInvite(w, uid, id))
    case ReqDeleteUser(token, target) =>
      (match AdminCaller(w.mem, token) case None => w case Some(uid) => RemoveUserAs(w, uid, target))
    case ReqRegenerate(token, newToken) =>
      (match Caller(w.mem, token) case None => w case Some(uid) => Regenerate(w, uid, newToken))
    case ReqSettings(token, req) =>
      (match Caller(w.mem, token) case None => w case Some(uid) => ChangeSettings(w, uid, req))
    case ReqLanguage(token, code) =>
      (match Caller(w.mem, token) case None => w case Some(uid) => ChangeLanguage(w, uid, code))
    case ReqEnabled(token, enabled) =>
      (match Caller(w.mem, token) case None => w case Some(uid) => ChangeEnabled(w, uid, enabled))
    case ReqPing(token, wall, at) =>
      (match Caller(w.mem, token) case None => w case Some(uid) => DeviceAndWrite(w, uid, Ping(wall, at)))
    case ReqPause(token, at) =>
      (match Caller(w.mem, token) case None => w case Some(uid) => DeviceAndWrite(w, uid, Pause(at)))
    case ReqUnpause(token, at) =>
      (match Caller(w.mem, token) case None => w case Some(uid) => DeviceAndWrite(w, uid, Unpause(at)))
    case ReqScan(now, clock, rows) => ScanAndWrite(w, now, clock, rows)
    case Restart(loaded) => w.(mem := loaded)
  }

  /** What the environment owes a request: ids and tokens never in use, a clock that does not run back in a scan,
      the rows the scan collected, and, for a restart, maps filled from the tables. */
  ghost predicate Admissible(w: World, r: Request) {
    match r
    case ReqCreateUser(o, drawn) =>
      && drawn.userId !in w.db.users && drawn.uptimeId !in w.db.uptimes && drawn.token !in w.mem.tokens
      && (drawn.ntfy.Some? ==> drawn.ntfy.value.id !in w.db.ntfy)
    case ReqCreateInvite(_, id, inviteToken, _) => id !in w.db.invites && inviteToken !in w.mem.inviteTokens
    case ReqRegenerate(_, newToken) => newToken !in w.mem.tokens
    case ReqScan(now, clock, rows) =>
      && (forall u | u in w.mem.users :: w.mem.users[u].uptime.changedAt <= clock(u))
      && ToPersist(rows, w.mem.users, {}, now, clock)
    case Restart(loaded) => CanLoad(w.db) && IsLoadOf(w.db, loaded)
    case _ => true
  }

  /** Loading fails on a user without an uptime row. */
  ghost predicate CanLoad(db: Db) {
    forall u | u in JoinedUsers(db) :: HasUptime(db, u)
  }

  /** `m` is what the startup step can make of the tables; where tokens collide, any of the rows may win. */
  ghost predicate IsLoadOf(db: Db, m: Mem) {
    && m.users.Keys == JoinedUsers(db)
    && (forall u | u in m.users :: m.users[u].user.id == u && IsLoaded(db, m.users[u]))
    && (forall t | t in m.tokens :: m.tokens[t] in m.users && m.users[m.tokens[t]].user.accessToken == t)
    && (forall u | u in m.users :: m.users[u].user.accessToken in m.tokens)
    && (forall t | t in m.inviteTokens :: Unused(db, m.inviteTokens[t]) && db.invites[m.inviteTokens[t]].token == t)
    && (forall i | i in db.invites && !db.invites[i].isUsed :: db.invites[i].token in m.inviteTokens)
  }
}
