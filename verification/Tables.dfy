/** The SQL tables and the transactions on them: src/db/mod.rs.

    A transaction is atomic: it takes effect as a whole or leaves the tables as they were. The functions give
    each transaction's effect; the class `Database` runs the statements one by one and rolls back on failure. */
module Tables {
  import opened Base
  import opened Uptime
  import opened MaintenanceWindow
  import opened Models

  datatype Db = Db(
    users: map<ID, User>,
    ntfy: map<ID, NtfyUser>,
    uptimes: map<ID, UptimeRow>,
    invites: map<ID, Invite>)

  const EMPTY_DB := Db(map[], map[], map[], map[])

  datatype DbError = Conflict | CreationFailed | NotFound | CheckViolated

  /** Rows can be inserted: primary keys are new and references resolve. */
  predicate Insertable(db: Db, st: UserState) {
    && st.ntfy.id !in db.ntfy
    && st.user.id !in db.users && (st.user.ntfyId in db.ntfy || st.user.ntfyId == st.ntfy.id)
    && ValidWindow(st.user.maintStart, st.user.maintEnd)
    && st.uptime.id !in db.uptimes && (st.uptime.userId in db.users || st.uptime.userId == st.user.id)
  }

  function InsertState(db: Db, st: UserState): Db {
    db.(ntfy := db.ntfy[st.ntfy.id := st.ntfy],
        users := db.users[st.user.id := st.user],
        uptimes := db.uptimes[st.uptime.id := st.uptime])
  }

  predicate Unused(db: Db, invite: ID) {
    invite in db.invites && !db.invites[invite].isUsed
  }

  function Consume(db: Db, invite: ID, user: ID): Db
    requires invite in db.invites
  {
    db.(invites := db.invites[invite := db.invites[invite].(isUsed := true, userId := Some(user))])
  }

  function CreateState(db: Db, st: UserState, invite: Option<ID>): Result<Db, DbError> {
    if !Insertable(db, st) then Err(Conflict)
    else if invite.None? then Ok(InsertState(db, st))
    else if !Unused(db, invite.value) then Err(CreationFailed)
    else Ok(Consume(InsertState(db, st), invite.value, st.user.id))
  }

  function SetUsed(db: Db, uid: ID, used: int): Db
    requires uid in db.users
  {
    db.(users := db.users[uid := db.users[uid].(invitesUsed := used)])
  }

  function CreateInvite(db: Db, inv: Invite): Result<Db, DbError> {
    if inv.ownerId !in db.users then Err(NotFound)
    else
      var owner := db.users[inv.ownerId];
      if owner.invitesUsed + 1 > owner.invitesLimit then Err(CreationFailed)
      else if inv.id in db.invites then Err(Conflict)
      else
        var counted := SetUsed(db, inv.ownerId, owner.invitesUsed + 1);
        Ok(counted.(invites := counted.invites[inv.id := inv]))
  }

  predicate Owns(db: Db, owner: ID, invite: ID) {
    invite in db.invites && db.invites[invite].ownerId == owner
  }

  /** An unused invite gives its slot back; the second component is the number of rows deleted. */
  function DeleteInvite(db: Db, invite: ID, owner: ID): (Db, nat) {
    if !Owns(db, owner, invite) then (db, 0)
    else
      var without := db.(invites := db.invites - {invite});
      if db.invites[invite].isUsed || owner !in db.users then (without, 1)
      else (SetUsed(without, owner, db.users[owner].invitesUsed - 1), 1)
  }

  /** Deleting users cascades to their uptime rows and invites, and clears the references to them. */
  function DropUsers(db: Db, gone: set<ID>): Db {
    db.(users := db.users - gone,
        uptimes := map r | r in db.uptimes && db.uptimes[r].userId !in gone :: db.uptimes[r],
        invites := map i | i in db.invites && db.invites[i].ownerId !in gone ::
                     var inv := db.invites[i];
                     if inv.userId.Some? && inv.userId.value in gone then inv.(userId := None) else inv)
  }

  /** Users that reference an ntfy row, and would go with it. */
  function Referencing(db: Db, ntfyId: ID): set<ID> {
    set u | u in db.users && db.users[u].ntfyId == ntfyId
  }

  function DeleteUser(db: Db, uid: ID): Result<Db, DbError> {
    if uid !in db.users then Err(NotFound)
    else
      var ntfyId := db.users[uid].ntfyId;
      var without := DropUsers(db, {uid});
      Ok(DropUsers(without, Referencing(without, ntfyId)).(ntfy := db.ntfy - {ntfyId}))
  }

  lemma DropNobody(db: Db)
    ensures DropUsers(db, {}) == db
  {
    var db' := DropUsers(db, {});
    assert db'.users == db.users && db'.uptimes == db.uptimes && db'.invites == db.invites;
  }

  function SetToken(db: Db, uid: ID, token: string): Db {
    if uid in db.users then db.(users := db.users[uid := db.users[uid].(accessToken := token)]) else db
  }

  function SetEnabled(db: Db, ntfyId: ID, enabled: bool): Db {
    if ntfyId in db.ntfy then db.(ntfy := db.ntfy[ntfyId := db.ntfy[ntfyId].(enabled := enabled)]) else db
  }

  function SetLanguage(db: Db, uid: ID, language: string): Db {
    if uid in db.users then db.(users := db.users[uid := db.users[uid].(languageCode := language)]) else db
  }

  /** The columns an uptime write sets. */
  function Overwritten(stored: UptimeRow, row: UptimeRow): UptimeRow {
    stored.(touchedAt := row.touchedAt, status := row.status, changedAt := row.changedAt, prePause := row.prePause)
  }

  function UpdateUptime(db: Db, row: UptimeRow): Db {
    if row.id in db.uptimes then db.(uptimes := db.uptimes[row.id := Overwritten(db.uptimes[row.id], row)]) else db
  }

  function UpdateSettingsRow(db: Db, uid: ID, req: UpdateSettings): Result<Db, DbError> {
    if uid !in db.users then Ok(db)
    else
      var u := SettingsInTable(db.users[uid], req);
      if ValidWindow(u.maintStart, u.maintEnd) then Ok(db.(users := db.users[uid := u])) else Err(CheckViolated)
  }

  function UnusedInvites(db: Db): set<ID> {
    set i | i in db.invites && !db.invites[i].isUsed
  }

  /** The unused invite rows of `owner`. */
  function UnusedOf(db: Db, owner: ID): set<ID> {
    set i | i in db.invites && db.invites[i].ownerId == owner && !db.invites[i].isUsed
  }

  /** Users the inner join with the ntfy table keeps. */
  function JoinedUsers(db: Db): set<ID> {
    set u | u in db.users && db.users[u].ntfyId in db.ntfy
  }

  /** `row` is the newest uptime row of a user. */
  ghost predicate IsLatest(db: Db, uid: ID, row: UptimeRow) {
    && (exists r | r in db.uptimes :: db.uptimes[r] == row && row.userId == uid)
    && (forall r | r in db.uptimes && db.uptimes[r].userId == uid :: db.uptimes[r].createdAt <= row.createdAt)
  }

  ghost predicate HasUptime(db: Db, uid: ID) {
    exists r | r in db.uptimes :: db.uptimes[r].userId == uid
  }

  ghost predicate IsLoaded(db: Db, st: UserState) {
    && st.user.id in db.users && db.users[st.user.id] == st.user
    && st.user.ntfyId in db.ntfy && db.ntfy[st.user.ntfyId] == st.ntfy
    && IsLatest(db, st.user.id, st.uptime)
  }

  class Database {
    var users: map<ID, User>
    var ntfy: map<ID, NtfyUser>
    var uptimes: map<ID, UptimeRow>
    var invites: map<ID, Invite>

    constructor ()
      ensures View() == EMPTY_DB
    {
      users, ntfy, uptimes, invites := map[], map[], map[], map[];
    }

    function View(): Db
      reads this
    {
      Db(users, ntfy, uptimes, invites)
    }

    method Rollback(saved: Db)
      modifies this
      ensures View() == saved
    {
      users, ntfy, uptimes, invites := saved.users, saved.ntfy, saved.uptimes, saved.invites;
    }

    method CreateNewState(st: UserState, tokenId: Option<ID>) returns (error: Option<DbError>)
      modifies this
      ensures match CreateState(old(View()), st, tokenId)
              case Ok(db) => View() == db && error.None?
              case Err(e) => View() == old(View()) && error == Some(e)
    {
      var saved := View();
      if st.ntfy.id in ntfy {
        return Some(Conflict);
      }
      ntfy := ntfy[st.ntfy.id := st.ntfy];
      if st.user.id in users || st.user.ntfyId !in ntfy || !ValidWindow(st.user.maintStart, st.user.maintEnd) {
        Rollback(saved);
        return Some(Conflict);
      }
      users := users[st.user.id := st.user];
      if st.uptime.id in uptimes || st.uptime.userId !in users {
        Rollback(saved);
        return Some(Conflict);
      }
      uptimes := uptimes[st.uptime.id := st.uptime];
      match tokenId {
        case Some(inviteId) =>
          var updated := 0;
          if inviteId in invites && !invites[inviteId].isUsed {
            invites := invites[inviteId := invites[inviteId].(isUsed := true, userId := Some(st.user.id))];
            updated := 1;
          }
          if updated == 0 {
            Rollback(saved);
            return Some(CreationFailed);
          }
        case None =>
      }
      return None;
    }

    method CreateNewInvite(inv: Invite) returns (error: Option<DbError>)
      modifies this
      ensures match CreateInvite(old(View()), inv)
              case Ok(db) => View() == db && error.None?
              case Err(e) => View() == old(View()) && error == Some(e)
    {
      var saved := View();
      if inv.ownerId !in users {
        return Some(NotFound);
      }
      users := users[inv.ownerId := users[inv.ownerId].(invitesUsed := users[inv.ownerId].invitesUsed + 1)];
      var limit, used := users[inv.ownerId].invitesLimit, users[inv.ownerId].invitesUsed;
      if used > limit {
        Rollback(saved);
        return Some(CreationFailed);
      }
      if inv.id in invites {
        Rollback(saved);
        return Some(Conflict);
      }
      invites := invites[inv.id := inv];
      return None;
    }

    method DeleteInviteRow(inviteId: ID, ownerId: ID) returns (deleted: nat)
      modifies this
      ensures (View(), deleted) == DeleteInvite(old(View()), inviteId, ownerId)
    {
      if inviteId !in invites || invites[inviteId].ownerId != ownerId {
        return 0;
      }
      var inviteUsed := invites[inviteId].isUsed;
      invites := invites - {inviteId};
      deleted := 1;
      if deleted > 0 && !inviteUsed {
        if ownerId in users {
          users := users[ownerId := users[ownerId].(invitesUsed := users[ownerId].invitesUsed - 1)];
        }
      }
    }

    /** DELETE FROM users, with the cascades the schema declares. */
    method DeleteCascading(gone: set<ID>)
      modifies this
      ensures View() == DropUsers(old(View()), gone)
    {
      uptimes := map r | r in uptimes && uptimes[r].userId !in gone :: uptimes[r];
      invites := map i | i in invites && invites[i].ownerId !in gone ::
                   if invites[i].userId.Some? && invites[i].userId.value in gone
                   then invites[i].(userId := None) else invites[i];
      users := users - gone;
    }

    method DeleteUserRows(uid: ID) returns (error: Option<DbError>)
      modifies this
      ensures match DeleteUser(old(View()), uid)
              case Ok(db) => View() == db && error.None?
              case Err(e) => View() == old(View()) && error == Some(e)
    {
      if uid !in users {
        return Some(NotFound);
      }
      var ntfyId := users[uid].ntfyId;
      DeleteCascading({uid});
      var referencing := Referencing(View(), ntfyId);
      ntfy := ntfy - {ntfyId};
      DeleteCascading(referencing);
      return None;
    }

    method RegenerateUserToken(uid: ID, token: string)
      modifies this
      ensures View() == SetToken(old(View()), uid, token)
    {
      if uid in users {
        users := users[uid := users[uid].(accessToken := token)];
      }
    }

    method UpdateNtfyEnabled(ntfyId: ID, enabled: bool)
      modifies this
      ensures View() == SetEnabled(old(View()), ntfyId, enabled)
    {
      if ntfyId in ntfy {
        ntfy := ntfy[ntfyId := ntfy[ntfyId].(enabled := enabled)];
      }
    }

    method UpdateUserLanguage(uid: ID, language: string)
      modifies this
      ensures View() == SetLanguage(old(View()), uid, language)
    {
      if uid in users {
        users := users[uid := users[uid].(languageCode := language)];
      }
    }

    method UpdateUptimeState(row: UptimeRow)
      modifies this
      ensures View() == UpdateUptime(old(View()), row)
    {
      if row.id in uptimes {
        var stored := uptimes[row.id];
        uptimes := uptimes[row.id := UptimeRow(stored.id, stored.createdAt, row.touchedAt, row.status, stored.userId,
                                               row.changedAt, row.prePause)];
      }
    }

    method UpdateUserSettings(uid: ID, upDelay: Option<int>, maintStart: Option<Option<int>>,
                              maintEnd: Option<Option<int>>)
      returns (error: Option<DbError>)
      modifies this
      ensures match UpdateSettingsRow(old(View()), uid, UpdateSettings(upDelay, maintStart, maintEnd))
              case Ok(db) => View() == db && error.None?
              case Err(e) => View() == old(View()) && error == Some(e)
    {
      if uid !in users {
        return None;
      }
      var u := users[uid];
      match (upDelay, maintStart, maintEnd) {
        case (Some(d), Some(s), Some(e)) => u := u.(upDelay := d, maintStart := s, maintEnd := e);
        case (Some(d), _, _) => u := u.(upDelay := d);
        case (None, Some(s), Some(e)) => u := u.(maintStart := s, maintEnd := e);
        case (None, _, _) =>
      }
      if !ValidWindow(u.maintStart, u.maintEnd) {
        return Some(CheckViolated);
      }
      users := users[uid := u];
      return None;
    }

    /** The rows of the join, in any order, each with the newest uptime row of its user; fails if a user has none. */
    method GetAllStates() returns (r: Result<seq<UserState>, DbError>)
      requires forall u | u in users :: users[u].id == u
      ensures r.Ok? <==> forall u | u in JoinedUsers(View()) :: HasUptime(View(), u)
      ensures r.Ok? ==>
                && (forall i | 0 <= i < |r.value| :: IsLoaded(View(), r.value[i]))
                && (forall u | u in JoinedUsers(View()) :: exists i | 0 <= i < |r.value| ::
                   r.value[i].user == View().users[u])
                && (forall i, j | 0 <= i < j < |r.value| :: r.value[i].user.id != r.value[j].user.id)
    {
      var todo := JoinedUsers(View());
      var allStates: seq<UserState> := [];
      while todo != {}
        invariant todo <= JoinedUsers(View())
        invariant forall i | 0 <= i < |allStates| :: IsLoaded(View(), allStates[i]) && allStates[i].user.id !in todo
        invariant forall u | u in JoinedUsers(View()) - todo :: exists i | 0 <= i < |allStates| ::
                  allStates[i].user == users[u]
        invariant forall i, j | 0 <= i < j < |allStates| :: allStates[i].user.id != allStates[j].user.id
        invariant forall u | u in JoinedUsers(View()) - todo :: HasUptime(View(), u)
      {
        var u :| u in todo;
        var found := LatestUptime(u);
        if found.None? {
          assert !HasUptime(View(), u);
          return Err(NotFound);
        }
        var st := UserState(users[u], ntfy[users[u].ntfyId], found.value);
        ghost var before := allStates;
        allStates := allStates + [st];
        assert allStates[|before|].user == users[u];
        assert forall i | 0 <= i < |before| :: allStates[i] == before[i];
        todo := todo - {u};
      }
      return Ok(allStates);
    }

    /** SELECT .. WHERE user_id = uid ORDER BY created_at DESC LIMIT 1. */
    method LatestUptime(uid: ID) returns (found: Option<UptimeRow>)
      ensures found.Some? ==>
                && IsLatest(View(), uid, found.value)
                && found.value.userId == uid
                && forall r | r in uptimes && uptimes[r].userId == uid :: uptimes[r].createdAt <= found.value.createdAt
      ensures found.Some? <==> HasUptime(View(), uid)
    {
      found := None;
      var todo := uptimes.Keys;
      while todo != {}
        invariant todo <= uptimes.Keys
        invariant found.Some? ==>
                    && (exists r | r in uptimes :: uptimes[r] == found.value && found.value.userId == uid)
                    && (forall r | r in uptimes.Keys - todo && uptimes[r].userId == uid ::
                          uptimes[r].createdAt <= found.value.createdAt)
        invariant found.None? ==> forall r | r in uptimes.Keys - todo :: uptimes[r].userId != uid
      {
        var r :| r in todo;
        var row := uptimes[r];
        if row.userId == uid && (found.None? || found.value.createdAt < row.createdAt) {
          found := Some(row);
        }
        todo := todo - {r};
      }
    }

    /** The owner's invite rows, narrowed to the unused ones by the caller, in any order. */
    method UnusedInvitesOf(owner: ID) returns (ids: seq<ID>)
      ensures (set i | i in ids) == UnusedOf(View(), owner)
    {
      ids := [];
      var todo := invites.Keys;
      while todo != {}
        invariant todo <= invites.Keys
        invariant forall i :: i in ids <==> i in UnusedOf(View(), owner) && i !in todo
      {
        var i :| i in todo;
        if invites[i].ownerId == owner && !invites[i].isUsed {
          ids := ids + [i];
        }
        todo := todo - {i};
      }
    }

    method GetAllUnusedInvites() returns (unused: set<ID>)
      ensures forall i :: i in unused <==> i in invites && !invites[i].isUsed
      ensures unused == UnusedInvites(View())
    {
      unused := set i | i in invites && invites[i].isUsed == false;
    }
  }
}
