/** The handlers themselves, on the tables and the shared maps: each method runs one request from its guards to its
    last update, and is proved to do what the function of Registry says. */
module Handlers {
  import opened Base
  import opened Uptime
  import opened MaintenanceWindow
  import opened Models
  import opened Device
  import opened Memory
  import opened Tables
  import opened Registry
  import opened Requests

  class App {
    const db: Database
    const ctx: Context

    constructor ()
      ensures Both() == EMPTY_WORLD && fresh(db) && fresh(ctx) && ctx.dispatched == []
    {
      db := new Database();
      ctx := new Context();
    }

    function Both(): World
      reads db, ctx
    {
      World(db.View(), ctx.View())
    }

    /** `create_user`. */
    method CreateUser(o: NewUserReq, drawn: Drawn) returns (created: Option<UserState>)
      modifies db, ctx
      ensures Both() == Registry.CreateUser(old(Both()), o, drawn) && ctx.dispatched == old(ctx.dispatched)
      ensures created.Some? ==>
                drawn.ntfy.Some? && Newcomer(created.value, o, drawn) && created.value.user.id in db.users
      ensures created.None? ==> Both() == old(Both())
    {
      var inviteId: Option<ID> := None;
      if o.invite.Some? {
        if o.invite.value !in ctx.inviteTokens {
          return None;
        }
        inviteId := Some(ctx.inviteTokens[o.invite.value]);
      } else {
        if ctx.users != map[] {
          return None;
        }
        if o.userType != Admin {
          return None;
        }
      }
      var kind, limit := o.userType, o.invitesLimit;
      if inviteId.Some? {
        kind, limit := Normal, 0;
      }
      if !DelayAccepted(o.upDelay) || !LanguageAccepted(o.languageCode) || drawn.ntfy.None? {
        return None;
      }
      var ntfy := drawn.ntfy.value.(enabled := o.ntfyEnabled);
      PreparedIsNewcomer(o, drawn);
      var user := NewUser(drawn.userId, kind, limit, o.upDelay, o.languageCode, ntfy.id, drawn.token, drawn.now);
      var st := UserState(user, ntfy, NewRow(drawn.uptimeId, user.id, drawn.now));
      var error := db.CreateNewState(st, inviteId);
      if error.Some? {
        return None;
      }
      if o.invite.Some? {
        ctx.inviteTokens := ctx.inviteTokens - {o.invite.value};
      }
      ctx.AddState(st);
      return Some(st);
    }

    /** `create_invite`, for an owner that passed the guards. */
    method CreateInvite(owner: ID, id: ID, token: string, now: Time) returns (created: Option<Invite>)
      modifies db, ctx
      ensures Both() == MakeInvite(old(Both()), owner, id, token, now) && ctx.dispatched == old(ctx.dispatched)
      ensures created.Some? ==> Unused(db.View(), id) && db.invites[id] == created.value
      ensures created.None? ==> Both() == old(Both())
    {
      if owner !in ctx.users {
        return None;
      }
      if ctx.users[owner].user.invitesUsed >= ctx.users[owner].user.invitesLimit {
        return None;
      }
      var inv := NewInvite(id, owner, token, now);
      var error := db.CreateNewInvite(inv);
      if error.Some? {
        return None;
      }
      ctx.AddInvite(inv);
      return Some(inv);
    }

    /** `delete_invite`. */
    method DeleteInvite(admin: ID, id: ID) returns (found: bool)
      modifies db, ctx
      ensures Both() == DropInvite(old(Both()), admin, id) && ctx.dispatched == old(ctx.dispatched)
      ensures found == Owns(old(db.View()), admin, id)
    {
      var deleted := db.DeleteInviteRow(id, admin);
      if deleted == 0 {
        return false;
      }
      var wasUnused := ctx.RemoveInvite(id);
      if wasUnused && admin in ctx.users {
        var state := ctx.users[admin];
        ctx.users := ctx.users[admin := state.(user := state.user.(invitesUsed := state.user.invitesUsed - 1))];
      }
      return true;
    }

    /** `delete_user`. */
    method DeleteUser(admin: ID, uid: ID) returns (deleted: bool)
      modifies db, ctx
      ensures Both() == RemoveUserAs(old(Both()), admin, uid) && ctx.dispatched == old(ctx.dispatched)
      ensures deleted <==> uid != admin && uid in old(db.users)
    {
      if admin == uid {
        return false;
      }
      var invites := db.UnusedInvitesOf(uid);
      var error := db.DeleteUserRows(uid);
      if error.Some? {
        return false;
      }
      ctx.RemoveUserEntry(uid);
      ctx.RemoveInviteIds(invites);
      return true;
    }

    /** `regenerate_token`. */
    method RegenerateToken(uid: ID, token: string) returns (found: bool)
      modifies db, ctx
      ensures Both() == Regenerate(old(Both()), uid, token) && ctx.dispatched == old(ctx.dispatched)
      ensures found == (uid in old(ctx.users))
    {
      db.RegenerateUserToken(uid, token);
      if uid !in ctx.users {
        return false;
      }
      var state := ctx.users[uid];
      ctx.users := ctx.users[uid := state.(user := state.user.(accessToken := token))];
      ctx.tokens := ctx.tokens - {state.user.accessToken};
      ctx.tokens := ctx.tokens[token := uid];
      return true;
    }

    /** `update_settings`. */
    method UpdateSettings(uid: ID, req: Models.UpdateSettings) returns (accepted: bool)
      modifies db, ctx
      ensures Both() == ChangeSettings(old(Both()), uid, req) && ctx.dispatched == old(ctx.dispatched)
      ensures accepted <==>
                && Rejection(req).None? && UpdateSettingsRow(old(db.View()), uid, req).Ok?
                && uid in old(ctx.users)
    {
      if req.upDelay.Some? && !(MIN_DELAY <= req.upDelay.value <= MAX_DELAY) {
        return false;
      }
      if req.maintStart.Some? != req.maintEnd.Some? {
        return false;
      }
      if req.maintStart.Some? && req.maintStart.value.Some? != req.maintEnd.value.Some? {
        return false;
      }
      if req.maintStart.Some? && req.maintStart.value.Some? {
        var s, e := req.maintStart.value.value, req.maintEnd.value.value;
        if !(0 <= s < MINUTES_PER_DAY) || !(0 <= e < MINUTES_PER_DAY) || s == e {
          return false;
        }
      }
      var error := db.UpdateUserSettings(uid, req.upDelay, req.maintStart, req.maintEnd);
      if error.Some? {
        return false;
      }
      if uid !in ctx.users {
        return false;
      }
      var state := ctx.users[uid];
      if req.upDelay.Some? {
        state := state.(user := state.user.(upDelay := req.upDelay.value));
      }
      if req.maintStart.Some? {
        state := state.(user := state.user.(maintStart := req.maintStart.value));
      }
      if req.maintEnd.Some? {
        state := state.(user := state.user.(maintEnd := req.maintEnd.value));
      }
      ctx.users := ctx.users[uid := state];
      return true;
    }

    /** `update_language`. */
    method UpdateLanguage(uid: ID, code: string) returns (accepted: bool)
      modifies db, ctx
      ensures Both() == ChangeLanguage(old(Both()), uid, code) && ctx.dispatched == old(ctx.dispatched)
      ensures accepted == LanguageAccepted(code)
    {
      if !LanguageAccepted(code) {
        return false;
      }
      db.UpdateUserLanguage(uid, code);
      if uid in ctx.users {
        ctx.users := ctx.users[uid := ctx.users[uid].(user := ctx.users[uid].user.(languageCode := code))];
      }
      return true;
    }

    /** `update_ntfy_settings`. */
    method UpdateNtfySettings(uid: ID, enabled: bool) returns (found: bool)
      modifies db, ctx
      ensures Both() == ChangeEnabled(old(Both()), uid, enabled) && ctx.dispatched == old(ctx.dispatched)
      ensures found == (uid in old(ctx.users))
    {
      if uid !in ctx.users {
        return false;
      }
      db.UpdateNtfyEnabled(ctx.users[uid].ntfy.id, enabled);
      if uid in ctx.users {
        ctx.users := ctx.users[uid := ctx.users[uid].(ntfy := ctx.users[uid].ntfy.(enabled := enabled))];
      }
      return true;
    }

    /** `api_up`. */
    method ApiUp(uid: ID, wall: Time, at: Time) returns (authorized: bool)
      modifies db, ctx
      ensures Both() == DeviceAndWrite(old(Both()), uid, Ping(wall, at))
      ensures ctx.dispatched == old(ctx.dispatched)
                                + Tagged(uid, if uid in old(ctx.users) then Calls(old(ctx.users)[uid], Ping(wall, at))
                                  else [])
      ensures authorized == (uid in old(ctx.users))
    {
      var snapshot := ctx.Up(uid, wall, at);
      if snapshot.None? {
        return false;
      }
      db.UpdateUptimeState(snapshot.value);
      return true;
    }

    /** `pause_monitoring`. */
    method PauseMonitoring(uid: ID, at: Time) returns (paused: bool)
      modifies db, ctx
      ensures Both() == DeviceAndWrite(old(Both()), uid, Event.Pause(at))
      ensures ctx.dispatched == old(ctx.dispatched)
      ensures paused <==> uid in old(ctx.users) && !Refused(old(ctx.users)[uid], Event.Pause(at))
    {
      var snapshot := ctx.PauseMonitoring(uid, at);
      if snapshot.Some? {
        db.UpdateUptimeState(snapshot.value);
      }
      return snapshot.Some?;
    }

    /** `unpause_monitoring`. */
    method UnpauseMonitoring(uid: ID, at: Time) returns (resumed: bool)
      modifies db, ctx
      ensures Both() == DeviceAndWrite(old(Both()), uid, Event.Unpause(at))
      ensures ctx.dispatched == old(ctx.dispatched)
      ensures resumed <==> uid in old(ctx.users) && !Refused(old(ctx.users)[uid], Event.Unpause(at))
    {
      var snapshot := ctx.UnpauseMonitoring(uid, at);
      if snapshot.Some? {
        db.UpdateUptimeState(snapshot.value);
      }
      return snapshot.Some?;
    }

    /** One round of `background_handle_down`: the pass over the map, then the deferred writes one by one. */
    method HandleDownRound(now: Time, clock: ID -> Time) returns (sleepFor: int, rows: seq<UptimeRow>)
      modifies db, ctx
      ensures ToPersist(rows, old(ctx.users), {}, now, clock)
      ensures Both() == ScanAndWrite(old(Both()), now, clock, rows)
      ensures IsSleep(old(ctx.users), now, sleepFor)
      ensures PartlyLogged(ctx.dispatched, old(ctx.dispatched), old(ctx.users), {}, now, clock)
    {
      hide ToPersist, PartlyLogged, IsSleep, Scanned, UpdateUptime;
      sleepFor, rows := ctx.HandleDown(now, clock);
      ghost var scanned := ctx.View();
      ghost var log := ctx.dispatched;
      var i := 0;
      while i < |rows|
        invariant 0 <= i <= |rows|
        invariant db.View() == WriteAll(old(db.View()), rows[..i])
        invariant ctx.View() == scanned && ctx.dispatched == log
      {
        db.UpdateUptimeState(rows[i]);
        assert rows[..i + 1][..i] == rows[..i];
        i := i + 1;
      }
      assert rows[..|rows|] == rows;
    }

    method LoadStates(items: seq<UserState>)
      requires ctx.View() == EMPTY_MEM
      requires forall i, j | 0 <= i < j < |items| :: items[i].user.id != items[j].user.id
      modifies ctx
      ensures StatesLoaded(items, ctx.users, ctx.tokens) && ctx.inviteTokens == map[]
    {
      var i := 0;
      while i < |items|
        invariant 0 <= i <= |items|
        invariant StatesLoaded(items[..i], ctx.users, ctx.tokens) && ctx.inviteTokens == map[]
      {
        StateLoads(items[..i], items[i], ctx.users, ctx.tokens);
        assert items[..i] + [items[i]] == items[..i + 1];
        ctx.AddState(items[i]);
        i := i + 1;
      }
      assert items[..i] == items;
    }

    method LoadInvites()
      requires ctx.inviteTokens == map[]
      modifies ctx
      ensures ctx.users == old(ctx.users) && ctx.tokens == old(ctx.tokens)
      ensures InvitesLoaded(db.View(), {}, ctx.inviteTokens)
    {
      var todo := db.GetAllUnusedInvites();
      while todo != {}
        invariant todo <= UnusedInvites(db.View()) && ctx.users == old(ctx.users) && ctx.tokens == old(ctx.tokens)
        invariant InvitesLoaded(db.View(), todo, ctx.inviteTokens)
      {
        var id :| id in todo;
        ctx.inviteTokens := ctx.inviteTokens[db.invites[id].token := id];
        todo := todo - {id};
      }
    }

    /** The load at startup: every state with its tokens, then the unused invites. */
    method LoadAll() returns (ok: bool)
      requires ctx.View() == EMPTY_MEM
      requires forall u | u in db.users :: db.users[u].id == u
      modifies ctx
      ensures ok == CanLoad(db.View())
      ensures ok ==> IsLoadOf(db.View(), ctx.View())
    {
      var items := db.GetAllStates();
      if items.Err? {
        return false;
      }
      LoadStates(items.value);
      AllUsersLoaded(db.View(), items.value, ctx.users, ctx.tokens);
      LoadInvites();
      LoadedIsLoadOf(db.View(), items.value, ctx.View());
      return true;
    }
  }

  ghost predicate InvitesLoaded(db: Db, todo: set<ID>, inviteTokens: map<string, ID>) {
    && (forall t | t in inviteTokens :: Unused(db, inviteTokens[t]) && db.invites[inviteTokens[t]].token == t)
    && (forall id | id in db.invites && !db.invites[id].isUsed && id !in todo :: db.invites[id].token in inviteTokens)
  }

  lemma LoadedIsLoadOf(db: Db, items: seq<UserState>, m: Mem)
    requires StatesLoaded(items, m.users, m.tokens) && InvitesLoaded(db, {}, m.inviteTokens)
    requires m.users.Keys == JoinedUsers(db)
    requires forall u | u in m.users :: m.users[u].user.id == u && IsLoaded(db, m.users[u])
    ensures IsLoadOf(db, m)
  {
    hide IsLoaded, JoinedUsers;
  }

  /** The maps after adding the states one by one. */
  ghost predicate StatesLoaded(items: seq<UserState>, users: map<ID, UserState>, tokens: map<string, ID>) {
    && (forall st | st in items :: st.user.id in users && users[st.user.id] == st)
    && (forall u | u in users :: users[u] in items && users[u].user.id == u && users[u].user.accessToken in tokens)
    && (forall t | t in tokens :: tokens[t] in users && users[tokens[t]].user.accessToken == t)
  }

  lemma StateLoads(items: seq<UserState>, st: UserState, users: map<ID, UserState>, tokens: map<string, ID>)
    requires StatesLoaded(items, users, tokens) && forall other | other in items :: other.user.id != st.user.id
    ensures StatesLoaded(items + [st], users[st.user.id := st], tokens[st.user.accessToken := st.user.id])
  {
  }

  lemma AllUsersLoaded(db: Db, items: seq<UserState>, users: map<ID, UserState>, tokens: map<string, ID>)
    requires StatesLoaded(items, users, tokens) && forall u | u in db.users :: db.users[u].id == u
    requires forall i | 0 <= i < |items| :: IsLoaded(db, items[i])
    requires forall u | u in JoinedUsers(db) :: exists i | 0 <= i < |items| :: items[i].user == db.users[u]
    ensures users.Keys == JoinedUsers(db)
    ensures forall u | u in users :: users[u].user.id == u && IsLoaded(db, users[u])
  {
    forall u | u in JoinedUsers(db) ensures u in users {
      var i :| 0 <= i < |items| && items[i].user == db.users[u];
      assert items[i] in items;
    }
  }
}
