/** The caches agree with the tables after every sequence of atomic handlers, and a restart changes nothing. */
module Agreement {
  import opened Base
  import opened Uptime
  import opened Models
  import opened Device
  import opened Memory
  import opened Tables
  import opened Registry
  import Runs

  // ----- Restart -----

  lemma UptimeIsTheOnlyOne(db: Db, users: map<ID, UserState>, u: ID)
    requires UptimesAgree(db.uptimes, users) && u in users
    ensures HasUptime(db, u)
    ensures forall row :: IsLatest(db, u, row) <==> row == users[u].uptime
  {
    assert db.uptimes[users[u].uptime.id].userId == u;
    forall row | IsLatest(db, u, row) ensures row == users[u].uptime {
      var r :| r in db.uptimes && db.uptimes[r] == row;
      assert users[db.uptimes[r].userId].uptime.id == r;
    }
    assert IsLatest(db, u, users[u].uptime);
  }

  lemma EveryoneIsJoined(db: Db, users: map<ID, UserState>)
    requires UsersAgree(db.users, users) && NtfyAgree(db.ntfy, users)
    ensures JoinedUsers(db) == users.Keys
  {
    forall u | u in users ensures u in JoinedUsers(db) {
      assert users[u].ntfy.id in db.ntfy;
    }
  }

  lemma EveryoneLoads(db: Db, users: map<ID, UserState>, u: ID)
    requires UsersAgree(db.users, users) && NtfyAgree(db.ntfy, users) && UptimesAgree(db.uptimes, users)
    requires u in users
    ensures HasUptime(db, u)
    ensures forall st: UserState :: st.user.id == u && IsLoaded(db, st) <==> st == users[u]
  {
    UptimeIsTheOnlyOne(db, users, u);
  }

  lemma SameUsers(db: Db, users: map<ID, UserState>)
    requires UsersAgree(db.users, users) && NtfyAgree(db.ntfy, users) && UptimesAgree(db.uptimes, users)
    ensures CanLoad(db) && JoinedUsers(db) == users.Keys
    ensures forall u, st: UserState | u in users && st.user.id == u :: IsLoaded(db, st) <==> st == users[u]
    ensures forall u | u in users :: users[u].user.id == u
  {
    hide NtfyAgree, UptimesAgree, IsLoaded, HasUptime, JoinedUsers;
    EveryoneIsJoined(db, users);
    forall u | u in users
      ensures HasUptime(db, u) && forall st: UserState | st.user.id == u :: IsLoaded(db, st) <==> st == users[u]
    {
      EveryoneLoads(db, users, u);
    }
  }

  /** A restart always succeeds and changes nothing. */
  lemma {:induction false} ReloadChangesNothing(w: World, m: Mem)
    requires Agrees(w)
    ensures CanLoad(w.db)
    ensures IsLoadOf(w.db, m) <==> m == w.mem
  {
    hide NtfyAgree, UptimesAgree, UsersAgree, TokensAgree, InvitesAgree, IsLoaded, CanLoad, JoinedUsers;
    SameUsers(w.db, w.mem.users);
    if IsLoadOf(w.db, m) {
      assert m.users == w.mem.users;
    }
    if m.users == w.mem.users {
      SameTokens(m.users, w.mem.tokens, m.tokens);
      SameInvites(w.db, w.mem.inviteTokens, m.inviteTokens);
    }
  }

  lemma SameTokens(users: map<ID, UserState>, tokens: map<string, ID>, loaded: map<string, ID>)
    requires TokensAgree(tokens, users)
    ensures (forall t | t in loaded :: loaded[t] in users && users[loaded[t]].user.accessToken == t)
            && (forall u | u in users :: users[u].user.accessToken in loaded)
       <==> loaded == tokens
  {
    if !(forall t | t in loaded :: loaded[t] in users && users[loaded[t]].user.accessToken == t)
       || !(forall u | u in users :: users[u].user.accessToken in loaded) {
      return;
    }
    forall t | t in tokens ensures t in loaded {
      assert users[tokens[t]].user.accessToken == t;
    }
    forall t | t in loaded ensures t in tokens && tokens[t] == loaded[t] {
      assert users[loaded[t]].user.accessToken == t;
    }
  }

  lemma SameInvites(db: Db, inviteTokens: map<string, ID>, loaded: map<string, ID>)
    requires InvitesAgree(db.users.Keys, db.invites, inviteTokens)
    ensures (forall t | t in loaded :: Unused(db, loaded[t]) && db.invites[loaded[t]].token == t)
            && (forall i | i in db.invites && !db.invites[i].isUsed :: db.invites[i].token in loaded)
       <==> loaded == inviteTokens
  {
    if !(forall t | t in loaded :: Unused(db, loaded[t]) && db.invites[loaded[t]].token == t)
       || !(forall i | i in db.invites && !db.invites[i].isUsed :: db.invites[i].token in loaded) {
      return;
    }
    forall t | t in inviteTokens ensures t in loaded {
      assert db.invites[inviteTokens[t]].token == t;
    }
    forall t | t in loaded ensures t in inviteTokens && inviteTokens[t] == loaded[t] {
      assert db.invites[loaded[t]].token == t;
    }
  }

  // ----- Changes that keep an agreement -----

  /** The same users with the same ntfy accounts. */
  lemma NtfyCarriesOver(ntfy: map<ID, NtfyUser>, users: map<ID, UserState>, users': map<ID, UserState>)
    requires NtfyAgree(ntfy, users) && users'.Keys == users.Keys
    requires forall u | u in users :: users'[u].ntfy == users[u].ntfy && users'[u].user.ntfyId == users[u].user.ntfyId
    ensures NtfyAgree(ntfy, users')
  {
    forall n | n in ntfy ensures exists u | u in users' :: users'[u].ntfy.id == n {
      var u :| u in users && users[u].ntfy.id == n;
      assert users'[u].ntfy.id == n;
    }
  }

  lemma UptimesCarryOver(uptimes: map<ID, UptimeRow>, users: map<ID, UserState>, users': map<ID, UserState>)
    requires UptimesAgree(uptimes, users) && users'.Keys == users.Keys
    requires forall u | u in users :: users'[u].uptime == users[u].uptime
    ensures UptimesAgree(uptimes, users')
  {
  }

  lemma TokensCarryOver(tokens: map<string, ID>, users: map<ID, UserState>, users': map<ID, UserState>)
    requires TokensAgree(tokens, users) && users'.Keys == users.Keys
    requires forall u | u in users :: users'[u].user.accessToken == users[u].user.accessToken
    ensures TokensAgree(tokens, users')
  {
  }

  /** One user's row changes in columns that no other table or map refers to. */
  lemma RowChangeAgrees(w: World, uid: ID, u: User)
    requires Agrees(w) && uid in w.mem.users
    requires u.id == uid && u.ntfyId == w.db.users[uid].ntfyId && u.accessToken == w.db.users[uid].accessToken
    ensures Agrees(World(w.db.(users := w.db.users[uid := u]),
            w.mem.(users := w.mem.users[uid := w.mem.users[uid].(user := u)])))
  {
    hide NtfyAgree, UptimesAgree, TokensAgree, InvitesAgree;
    var rows', users' := w.db.users[uid := u], w.mem.users[uid := w.mem.users[uid].(user := u)];
    assert rows'.Keys == w.db.users.Keys && users'.Keys == w.mem.users.Keys;
    assert UsersAgree(rows', users');
    NtfyCarriesOver(w.db.ntfy, w.mem.users, users');
    UptimesCarryOver(w.db.uptimes, w.mem.users, users');
    TokensCarryOver(w.mem.tokens, w.mem.users, users');
  }

  // ----- Users -----

  lemma EnterNtfy(ntfy: map<ID, NtfyUser>, users: map<ID, UserState>, st: UserState)
    requires NtfyAgree(ntfy, users) && st.ntfy.id !in ntfy && st.user.id !in users && st.user.ntfyId == st.ntfy.id
    ensures NtfyAgree(ntfy[st.ntfy.id := st.ntfy], users[st.user.id := st])
  {
    var ntfy', users' := ntfy[st.ntfy.id := st.ntfy], users[st.user.id := st];
    forall n | n in ntfy' ensures exists u | u in users' :: users'[u].ntfy.id == n {
      if n == st.ntfy.id {
        assert users'[st.user.id].ntfy.id == n;
      } else {
        var u :| u in users && users[u].ntfy.id == n;
        assert users'[u].ntfy.id == n;
      }
    }
  }

  lemma EnterUptimes(uptimes: map<ID, UptimeRow>, users: map<ID, UserState>, st: UserState)
    requires UptimesAgree(uptimes, users) && st.uptime.id !in uptimes && st.user.id !in users
    requires st.uptime.userId == st.user.id
    ensures UptimesAgree(uptimes[st.uptime.id := st.uptime], users[st.user.id := st])
  {
  }

  lemma EnterTokens(tokens: map<string, ID>, users: map<ID, UserState>, st: UserState)
    requires TokensAgree(tokens, users) && st.user.accessToken !in tokens && st.user.id !in users
    ensures TokensAgree(tokens[st.user.accessToken := st.user.id], users[st.user.id := st])
  {
  }

  lemma MoreOwners(owners: set<ID>, owners': set<ID>, invites: map<ID, Invite>, inviteTokens: map<string, ID>)
    requires InvitesAgree(owners, invites, inviteTokens) && owners <= owners'
    ensures InvitesAgree(owners', invites, inviteTokens)
  {
  }

  lemma ConsumedInvite(owners: set<ID>, invites: map<ID, Invite>, inviteTokens: map<string, ID>, token: string,
                       user: ID)
    requires InvitesAgree(owners, invites, inviteTokens) && token in inviteTokens
    ensures var i := inviteTokens[token];
            InvitesAgree(owners, invites[i := invites[i].(isUsed := true, userId := Some(user))],
              inviteTokens - {token})
  {
  }

  /** A new user enters all tables and maps, and the invite leaves the unused ones. */
  lemma CreateUserAgrees(w: World, o: NewUserReq, drawn: Drawn)
    requires Agrees(w) && Admissible(w, ReqCreateUser(o, drawn))
    ensures Agrees(CreateUser(w, o, drawn))
  {
    hide NtfyAgree, UptimesAgree, TokensAgree, InvitesAgree;
    var w' := CreateUser(w, o, drawn);
    if w' != w {
      var st := Prepared(o, drawn).value;
      EnterNtfy(w.db.ntfy, w.mem.users, st);
      EnterUptimes(w.db.uptimes, w.mem.users, st);
      EnterTokens(w.mem.tokens, w.mem.users, st);
      assert UsersAgree(w'.db.users, w'.mem.users);
      MoreOwners(w.db.users.Keys, w'.db.users.Keys, w.db.invites, w.mem.inviteTokens);
      if o.invite.Some? {
        ConsumedInvite(w'.db.users.Keys, w.db.invites, w.mem.inviteTokens, o.invite.value, st.user.id);
      }
    }
  }

  lemma LeaveNtfy(ntfy: map<ID, NtfyUser>, users: map<ID, UserState>, uid: ID)
    requires NtfyAgree(ntfy, users) && uid in users
    ensures users[uid].ntfy.id == users[uid].user.ntfyId && NtfyAgree(ntfy - {users[uid].ntfy.id}, users - {uid})
  {
    var ntfy', users' := ntfy - {users[uid].ntfy.id}, users - {uid};
    forall n | n in ntfy' ensures exists u | u in users' :: users'[u].ntfy.id == n {
      var u :| u in users && users[u].ntfy.id == n;
      assert users'[u].ntfy.id == n;
    }
  }

  lemma LeaveUptimes(db: Db, users: map<ID, UserState>, uid: ID)
    requires UptimesAgree(db.uptimes, users) && uid in users
    ensures UptimesAgree(DropUsers(db, {uid}).uptimes, users - {uid})
  {
  }

  lemma LeaveTokens(tokens: map<string, ID>, users: map<ID, UserState>, uid: ID)
    requires TokensAgree(tokens, users) && uid in users
    ensures TokensAgree(tokens - {users[uid].user.accessToken}, users - {uid})
  {
  }

  lemma LeaveInvites(db: Db, m: Mem, uid: ID)
    requires InvitesAgree(db.users.Keys, db.invites, m.inviteTokens)
    ensures InvitesAgree(db.users.Keys - {uid}, DropUsers(db, {uid}).invites,
            DropInvites(m, UnusedOf(db, uid)).inviteTokens)
  {
  }

  /** Nobody else references a deleted user's ntfy row, so the second cascade finds nothing. */
  lemma NobodyElseReferences(db: Db, users: map<ID, UserState>, uid: ID)
    requires UsersAgree(db.users, users) && NtfyAgree(db.ntfy, users) && uid in db.users
    ensures Referencing(DropUsers(db, {uid}), db.users[uid].ntfyId) == {}
  {
    var without := DropUsers(db, {uid});
    forall u | u in without.users ensures without.users[u].ntfyId != db.users[uid].ntfyId {
      assert users[u].ntfy.id != users[uid].ntfy.id;
    }
  }

  lemma RemoveUserAgrees(w: World, admin: ID, uid: ID)
    requires Agrees(w)
    ensures Agrees(RemoveUserAs(w, admin, uid))
  {
    hide NtfyAgree, UptimesAgree, TokensAgree, InvitesAgree;
    if uid in w.db.users && admin != uid {
      NobodyElseReferences(w.db, w.mem.users, uid);
      DropNobody(DropUsers(w.db, {uid}));
      var w' := RemoveUserAs(w, admin, uid);
      LeaveNtfy(w.db.ntfy, w.mem.users, uid);
      assert w'.db == DropUsers(w.db, {uid}).(ntfy := w.db.ntfy - {w.mem.users[uid].ntfy.id});
      assert w'.db.users.Keys == w.db.users.Keys - {uid};
      assert UsersAgree(w'.db.users, w'.mem.users);
      LeaveUptimes(w.db, w.mem.users, uid);
      LeaveTokens(w.mem.tokens, w.mem.users, uid);
      LeaveInvites(w.db, w.mem, uid);
    }
  }

  lemma RegeneratedTokens(tokens: map<string, ID>, users: map<ID, UserState>, uid: ID, token: string)
    requires TokensAgree(tokens, users) && uid in users && token !in tokens
    ensures var st := users[uid];
            TokensAgree((tokens - {st.user.accessToken})[token := uid],
                        users[uid := st.(user := st.user.(accessToken := token))])
  {
  }

  lemma RegenerateAgrees(w: World, uid: ID, token: string)
    requires Agrees(w) && token !in w.mem.tokens && uid in w.mem.users
    ensures Agrees(Regenerate(w, uid, token))
  {
    hide NtfyAgree, UptimesAgree, TokensAgree, InvitesAgree;
    var w' := Regenerate(w, uid, token);
    assert w'.mem.users.Keys == w.mem.users.Keys && w'.db.users.Keys == w.db.users.Keys;
    assert UsersAgree(w'.db.users, w'.mem.users);
    NtfyCarriesOver(w.db.ntfy, w.mem.users, w'.mem.users);
    UptimesCarryOver(w.db.uptimes, w.mem.users, w'.mem.users);
    RegeneratedTokens(w.mem.tokens, w.mem.users, uid, token);
  }

  lemma ChangeSettingsAgrees(w: World, uid: ID, req: UpdateSettings)
    requires Agrees(w) && uid in w.mem.users
    ensures Agrees(ChangeSettings(w, uid, req))
  {
    hide NtfyAgree, UptimesAgree, TokensAgree, InvitesAgree;
    if ChangeSettings(w, uid, req) != w {
      TableAndMemoryUpdatesAgree(req, w.db.users[uid]);
      assert SettingsInTable(w.db.users[uid], req) == SettingsInMemory(w.db.users[uid], req);
      RowChangeAgrees(w, uid, SettingsInTable(w.db.users[uid], req));
    }
  }

  lemma ChangeLanguageAgrees(w: World, uid: ID, code: string)
    requires Agrees(w) && uid in w.mem.users
    ensures Agrees(ChangeLanguage(w, uid, code))
  {
    hide NtfyAgree, UptimesAgree, TokensAgree, InvitesAgree;
    RowChangeAgrees(w, uid, w.db.users[uid].(languageCode := code));
  }

  lemma EnabledNtfy(ntfy: map<ID, NtfyUser>, users: map<ID, UserState>, uid: ID, account: NtfyUser)
    requires NtfyAgree(ntfy, users) && uid in users && account.id == users[uid].ntfy.id
    ensures account.id in ntfy && ntfy[account.id] == users[uid].ntfy
    ensures NtfyAgree(ntfy[account.id := account], users[uid := users[uid].(ntfy := account)])
  {
    var ntfy', users' := ntfy[account.id := account], users[uid := users[uid].(ntfy := account)];
    forall n | n in ntfy' ensures exists u | u in users' :: users'[u].ntfy.id == n {
      var u :| u in users && users[u].ntfy.id == n;
      assert users'[u].ntfy.id == n;
    }
  }

  lemma ChangeEnabledAgrees(w: World, uid: ID, enabled: bool)
    requires Agrees(w) && uid in w.mem.users
    ensures Agrees(ChangeEnabled(w, uid, enabled))
  {
    hide NtfyAgree, UptimesAgree, TokensAgree, InvitesAgree;
    var w' := ChangeEnabled(w, uid, enabled);
    assert w'.mem.users.Keys == w.mem.users.Keys;
    assert UsersAgree(w'.db.users, w'.mem.users);
    EnabledNtfy(w.db.ntfy, w.mem.users, uid, w.mem.users[uid].ntfy.(enabled := enabled));
    UptimesCarryOver(w.db.uptimes, w.mem.users, w'.mem.users);
    TokensCarryOver(w.mem.tokens, w.mem.users, w'.mem.users);
  }

  // ----- Invites -----

  lemma EnterInvite(owners: set<ID>, invites: map<ID, Invite>, inviteTokens: map<string, ID>, inv: Invite)
    requires InvitesAgree(owners, invites, inviteTokens)
    requires inv.id !in invites && inv.token !in inviteTokens && inv.ownerId in owners && !inv.isUsed
    ensures InvitesAgree(owners, invites[inv.id := inv], inviteTokens[inv.token := inv.id])
  {
  }

  lemma MakeInviteAgrees(w: World, owner: ID, id: ID, token: string, now: Time)
    requires Agrees(w) && id !in w.db.invites && token !in w.mem.inviteTokens
    ensures Agrees(MakeInvite(w, owner, id, token, now))
  {
    hide NtfyAgree, UptimesAgree, TokensAgree, InvitesAgree;
    var inv := NewInvite(id, owner, token, now);
    if MakeInvite(w, owner, id, token, now) != w {
      RowChangeAgrees(w, owner, UsedPlus(w.db.users[owner], 1));
      EnterInvite(w.db.users.Keys, w.db.invites, w.mem.inviteTokens, inv);
      assert w.db.users[owner := UsedPlus(w.db.users[owner], 1)].Keys == w.db.users.Keys;
    }
  }

  lemma LeaveInvite(owners: set<ID>, invites: map<ID, Invite>, m: Mem, id: ID)
    requires InvitesAgree(owners, invites, m.inviteTokens) && id in invites
    ensures InvitesAgree(owners, invites - {id}, DropInvites(m, {id}).inviteTokens)
    ensures HasInvite(m, id) <==> !invites[id].isUsed
    ensures invites[id].ownerId in owners
  {
    if !invites[id].isUsed {
      assert m.inviteTokens[invites[id].token] == id;
    }
  }

  lemma DropInviteAgrees(w: World, admin: ID, id: ID)
    requires Agrees(w)
    ensures Agrees(DropInvite(w, admin, id))
  {
    hide NtfyAgree, UptimesAgree, TokensAgree, InvitesAgree;
    if Owns(w.db, admin, id) {
      LeaveInvite(w.db.users.Keys, w.db.invites, w.mem, id);
      if !w.db.invites[id].isUsed {
        RowChangeAgrees(w, admin, UsedPlus(w.db.users[admin], -1));
        assert w.db.users[admin := UsedPlus(w.db.users[admin], -1)].Keys == w.db.users.Keys;
      }
    }
  }

  // ----- Uptime -----

  /** Users and uptime rows change together, row by row. */
  lemma UptimeChange(uptimes: map<ID, UptimeRow>, users: map<ID, UserState>, uptimes': map<ID, UptimeRow>,
                     users': map<ID, UserState>)
    requires UptimesAgree(uptimes, users) && users'.Keys == users.Keys && uptimes'.Keys == uptimes.Keys
    requires forall u | u in users ::
               && users'[u].uptime.id == users[u].uptime.id && users'[u].uptime.userId == u
               && uptimes'[users[u].uptime.id] == users'[u].uptime
    ensures UptimesAgree(uptimes', users')
  {
    forall r | r in uptimes' ensures uptimes'[r].userId in users' && users'[uptimes'[r].userId].uptime.id == r {
      assert users[uptimes[r].userId].uptime.id == r;
    }
  }

  lemma UptimeChangeAgrees(w: World, w': World)
    requires Agrees(w) && w'.db == w.db.(uptimes := w'.db.uptimes) && w'.mem == w.mem.(users := w'.mem.users)
    requires w'.mem.users.Keys == w.mem.users.Keys && w'.db.uptimes.Keys == w.db.uptimes.Keys
    requires forall u | u in w.mem.users :: w'.mem.users[u] == w.mem.users[u].(uptime := w'.mem.users[u].uptime)
    requires UptimesAgree(w'.db.uptimes, w'.mem.users)
    ensures Agrees(w')
  {
    hide NtfyAgree, UptimesAgree, TokensAgree, InvitesAgree;
    assert UsersAgree(w'.db.users, w'.mem.users);
    NtfyCarriesOver(w.db.ntfy, w.mem.users, w'.mem.users);
    TokensCarryOver(w.mem.tokens, w.mem.users, w'.mem.users);
  }

  /** A device event changes nothing of a row but the four columns the write sets. */
  lemma StepKeepsIdentity(d: UserState, e: Event)
    requires !e.Settings? && !e.Edit?
    ensures Step(d, e) == d.(uptime := Step(d, e).uptime)
    ensures Overwritten(d.uptime, Step(d, e).uptime) == Step(d, e).uptime
    ensures Step(d, e).uptime.id == d.uptime.id && Step(d, e).uptime.userId == d.uptime.userId
  {
  }

  lemma OneUptimeChange(uptimes: map<ID, UptimeRow>, users: map<ID, UserState>, uid: ID, d: UserState)
    requires UptimesAgree(uptimes, users) && uid in users
    requires d.uptime.id == users[uid].uptime.id && d.uptime.userId == users[uid].uptime.userId
    ensures d.uptime.id in uptimes && uptimes[d.uptime.id] == users[uid].uptime
    ensures UptimesAgree(uptimes[d.uptime.id := d.uptime], users[uid := d])
  {
    var uptimes', users' := uptimes[d.uptime.id := d.uptime], users[uid := d];
    assert uptimes'.Keys == uptimes.Keys && users'.Keys == users.Keys;
    forall u | u in users && u != uid ensures users[u].uptime.id != d.uptime.id {
      assert uptimes[users[u].uptime.id].userId == u;
    }
    UptimeChange(uptimes, users, uptimes', users');
  }

  lemma DeviceAndWriteAgrees(w: World, uid: ID, e: Event)
    requires Agrees(w) && uid in w.mem.users && !e.Settings? && !e.Edit?
    ensures Agrees(DeviceAndWrite(w, uid, e))
  {
    hide NtfyAgree, UptimesAgree, TokensAgree, InvitesAgree;
    var d' := Step(w.mem.users[uid], e);
    if !Refused(w.mem.users[uid], e) {
      StepKeepsIdentity(w.mem.users[uid], e);
      OneUptimeChange(w.db.uptimes, w.mem.users, uid, d');
      var w' := World(w.db.(uptimes := w.db.uptimes[d'.uptime.id := d'.uptime]),
        w.mem.(users := w.mem.users[uid := d']));
      assert w'.mem.users.Keys == w.mem.users.Keys && w'.db.uptimes.Keys == w.db.uptimes.Keys;
      UptimeChangeAgrees(w, w');
      assert DeviceAndWrite(w, uid, e) == w';
    }
  }

  /** What writing the rows makes of one stored row, if no two of them are for the same. */
  lemma {:induction false} WriteAllEffect(db: Db, rows: seq<UptimeRow>, r: ID)
    requires forall x, y | x in rows && y in rows && x.id == y.id :: x == y
    ensures var db' := WriteAll(db, rows);
            && db' == db.(uptimes := db'.uptimes) && db'.uptimes.Keys == db.uptimes.Keys
            && (forall row | row in rows && row.id == r
               && r in db.uptimes :: db'.uptimes[r] == Overwritten(db.uptimes[r], row))
            && (r in db.uptimes && (forall row | row in rows :: row.id != r) ==> db'.uptimes[r] == db.uptimes[r])
  {
    if rows != [] {
      var before, last := rows[..|rows| - 1], rows[|rows| - 1];
      assert rows == before + [last];
      WriteAllEffect(db, before, r);
      var mid := WriteAll(db, before);
      assert WriteAll(db, rows) == UpdateUptime(mid, last);
      assert last in rows;
    }
  }

  /** With a forward clock an entry the scan changes is an entry the scan reports. */
  lemma UnreportedMeansUnchanged(d: UserState, now: Time, at: Time)
    requires d.uptime.changedAt <= at && Calls(d, Scan(now, at)) == []
    ensures Step(d, Scan(now, at)) == d
  {
  }

  /** A row the scan collects belongs to the device it was collected for. */
  lemma CollectedRow(users: map<ID, UserState>, uptimes: map<ID, UptimeRow>, now: Time, clock: ID -> Time,
                     rows: seq<UptimeRow>, row: UptimeRow)
    requires UptimesAgree(uptimes, users) && ToPersist(rows, users, {}, now, clock) && row in rows
    ensures row.userId in users && row.id in uptimes && uptimes[row.id].userId == row.userId
    ensures row.id == users[row.userId].uptime.id && row == Step(users[row.userId], Scan(now, clock(row.userId))).uptime
    ensures Calls(users[row.userId], Scan(now, clock(row.userId))) != []
  {
    var u :| u in users && FellTo(users, {}, u, now, clock, row);
    StepKeepsIdentity(users[u], Scan(now, clock(u)));
  }

  lemma ScanWritesThrough(db: Db, users: map<ID, UserState>, now: Time, clock: ID -> Time, rows: seq<UptimeRow>, u: ID)
    requires UptimesAgree(db.uptimes, users) && ToPersist(rows, users, {}, now, clock) && u in users
    requires users[u].uptime.changedAt <= clock(u)
    ensures WriteAll(db, rows) == db.(uptimes := WriteAll(db, rows).uptimes)
    ensures WriteAll(db, rows).uptimes.Keys == db.uptimes.Keys
    ensures WriteAll(db, rows).uptimes[users[u].uptime.id] == Step(users[u], Scan(now, clock(u))).uptime
  {
    forall x, y | x in rows && y in rows && x.id == y.id ensures x == y {
      CollectedRow(users, db.uptimes, now, clock, rows, x);
      CollectedRow(users, db.uptimes, now, clock, rows, y);
    }
    WriteAllEffect(db, rows, users[u].uptime.id);
    var e := Scan(now, clock(u));
    StepKeepsIdentity(users[u], e);
    if Calls(users[u], e) != [] {
      assert FellTo(users, {}, u, now, clock, Step(users[u], e).uptime);
    } else {
      UnreportedMeansUnchanged(users[u], now, clock(u));
      forall row | row in rows ensures row.id != users[u].uptime.id {
        CollectedRow(users, db.uptimes, now, clock, rows, row);
      }
    }
  }

  lemma ScanWritesNothing(db: Db, users: map<ID, UserState>, now: Time, clock: ID -> Time, rows: seq<UptimeRow>)
    requires UptimesAgree(db.uptimes, users) && ToPersist(rows, users, {}, now, clock) && users == map[]
    ensures rows == []
  {
    if rows != [] {
      CollectedRow(users, db.uptimes, now, clock, rows, rows[0]);
    }
  }

  lemma NothingWritten(db: Db)
    ensures WriteAll(db, []) == db
  {
  }

  lemma ScanUptimesAgree(db: Db, users: map<ID, UserState>, now: Time, clock: ID -> Time, rows: seq<UptimeRow>)
    requires UptimesAgree(db.uptimes, users) && ToPersist(rows, users, {}, now, clock)
    requires forall u | u in users :: users[u].uptime.changedAt <= clock(u)
    ensures WriteAll(db, rows) == db.(uptimes := WriteAll(db, rows).uptimes)
    ensures WriteAll(db, rows).uptimes.Keys == db.uptimes.Keys
    ensures UptimesAgree(WriteAll(db, rows).uptimes, Scanned(users, now, clock))
  {
    hide WriteAll, ToPersist, Step;
    if users == map[] {
      ScanWritesNothing(db, users, now, clock, rows);
      NothingWritten(db);
    } else {
      forall u | u in users
        ensures WriteAll(db, rows) == db.(uptimes := WriteAll(db, rows).uptimes)
        ensures WriteAll(db, rows).uptimes.Keys == db.uptimes.Keys
        ensures var row := Step(users[u], Scan(now, clock(u))).uptime;
                row.id == users[u].uptime.id && row.userId == u && WriteAll(db, rows).uptimes[users[u].uptime.id] == row
      {
        ScanWritesThrough(db, users, now, clock, rows, u);
        StepKeepsIdentity(users[u], Scan(now, clock(u)));
      }
      UptimeChange(db.uptimes, users, WriteAll(db, rows).uptimes, Scanned(users, now, clock));
    }
  }

  lemma ScanAgrees(w: World, now: Time, clock: ID -> Time, rows: seq<UptimeRow>)
    requires Agrees(w) && Admissible(w, ReqScan(now, clock, rows))
    ensures Agrees(ScanAndWrite(w, now, clock, rows))
  {
    hide NtfyAgree, UptimesAgree, TokensAgree, InvitesAgree, WriteAll, ToPersist, Step;
    var w' := ScanAndWrite(w, now, clock, rows);
    ScanUptimesAgree(w.db, w.mem.users, now, clock, rows);
    forall u | u in w.mem.users ensures w'.mem.users[u] == w.mem.users[u].(uptime := w'.mem.users[u].uptime) {
      StepKeepsIdentity(w.mem.users[u], Scan(now, clock(u)));
    }
    UptimeChangeAgrees(w, w');
  }

  // ----- All sequences -----

  lemma CallerIsKnown(w: World, token: string)
    requires Agrees(w) && token in w.mem.tokens
    ensures w.mem.tokens[token] in w.mem.users
  {
  }

  lemma {:induction false} HandleAgrees(w: World, r: Request)
    requires Agrees(w) && Admissible(w, r)
    ensures Agrees(Handle(w, r))
  {
    hide Agrees, CreateUser, MakeInvite, DropInvite, RemoveUserAs, Regenerate, ChangeSettings, ChangeLanguage,
      ChangeEnabled,
      DeviceAndWrite, ScanAndWrite, CanLoad, IsLoadOf;
    match r
    case ReqCreateUser(o, drawn) => CreateUserAgrees(w, o, drawn);
    case ReqCreateInvite(token, id, inviteToken, now) =>
      if AdminCaller(w.mem, token).Some? { MakeInviteAgrees(w, w.mem.tokens[token], id, inviteToken, now); }
    case ReqDeleteInvite(token, id) =>
      if AdminCaller(w.mem, token).Some? { DropInviteAgrees(w, w.mem.tokens[token], id); }
    case ReqDeleteUser(token, target) =>
      if AdminCaller(w.mem, token).Some? { RemoveUserAgrees(w, w.mem.tokens[token], target); }
    case ReqRegenerate(token, newToken) =>
      if token in w.mem.tokens { CallerIsKnown(w, token); RegenerateAgrees(w, w.mem.tokens[token], newToken); }
    case ReqSettings(token, req) =>
      if token in w.mem.tokens { CallerIsKnown(w, token); ChangeSettingsAgrees(w, w.mem.tokens[token], req); }
    case ReqLanguage(token, code) =>
      if token in w.mem.tokens { CallerIsKnown(w, token); ChangeLanguageAgrees(w, w.mem.tokens[token], code); }
    case ReqEnabled(token, enabled) =>
      if token in w.mem.tokens { CallerIsKnown(w, token); ChangeEnabledAgrees(w, w.mem.tokens[token], enabled); }
    case ReqPing(token, wall, at) =>
      if token in w.mem.tokens {
        CallerIsKnown(w, token);
        DeviceAndWriteAgrees(w, w.mem.tokens[token], Ping(wall, at));
      }
    case ReqPause(token, at) =>
      if token in w.mem.tokens {
        CallerIsKnown(w, token);
        DeviceAndWriteAgrees(w, w.mem.tokens[token], Event.Pause(at));
      }
    case ReqUnpause(token, at) =>
      if token in w.mem.tokens {
        CallerIsKnown(w, token);
        DeviceAndWriteAgrees(w, w.mem.tokens[token], Event.Unpause(at));
      }
    case ReqScan(now, clock, rows) => ScanAgrees(w, now, clock, rows);
    case Restart(loaded) => ReloadChangesNothing(w, loaded);
  }

  function Serve(w: World, rs: seq<Request>): World {
    Runs.Fold(Handle, w, rs)
  }

  ghost predicate AllAdmissible(w: World, rs: seq<Request>) {
    rs == [] || (AllAdmissible(w, rs[..|rs| - 1]) && Admissible(Serve(w, rs[..|rs| - 1]), rs[|rs| - 1]))
  }

  /** The caches agree with the tables after any sequence of requests, scans and restarts, in any of which a reload
      of the tables would succeed and give back the very same maps. */
  lemma {:induction false} CachesAlwaysAgree(rs: seq<Request>)
    requires AllAdmissible(EMPTY_WORLD, rs)
    ensures Agrees(Serve(EMPTY_WORLD, rs))
    ensures var w := Serve(EMPTY_WORLD, rs); CanLoad(w.db) && forall m :: IsLoadOf(w.db, m) <==> m == w.mem
  {
    if rs != [] {
      CachesAlwaysAgree(rs[..|rs| - 1]);
      HandleAgrees(Serve(EMPTY_WORLD, rs[..|rs| - 1]), rs[|rs| - 1]);
    }
    var w := Serve(EMPTY_WORLD, rs);
    ReloadChangesNothing(w, w.mem);
    forall m ensures IsLoadOf(w.db, m) <==> m == w.mem {
      ReloadChangesNothing(w, m);
    }
  }
}
