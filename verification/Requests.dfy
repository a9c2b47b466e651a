/** What each request comes to for those who use the server, whatever is in tables and maps: whether it is granted, by
    what its caller sent, and then what everybody can see. The maps are what the server answers from; the transactions
    named here are those of Rows. */
module Requests {
  import opened Base
  import opened Uptime
  import opened Models
  import opened Device
  import opened Memory
  import opened Tables
  import opened Registry
  import Agreement

  // ----- What is accepted -----

  /** Two or three characters, each with the ASCII code of a lower-case letter. */
  predicate LetterCode(code: string) {
    |code| in {2, 3} && forall c | c in code :: 97 <= c as int <= 122
  }

  lemma LanguageAcceptedIff(code: string)
    ensures LanguageAccepted(code) <==> LetterCode(code)
  {
    if LanguageAccepted(code) {
      forall c | c in code ensures 97 <= c as int <= 122 {
        var i :| 0 <= i < |code| && code[i] == c;
        assert 'a' <= code[i] <= 'z';
      }
    }
    if LetterCode(code) {
      forall i | 0 <= i < |code| ensures 'a' <= code[i] <= 'z' {
        assert code[i] in code;
      }
    }
  }

  /** A delay is absent or from 10 to 32767 seconds; a window is absent, cleared, or two different minutes of a day. */
  predicate Acceptable(req: UpdateSettings) {
    && (req.upDelay.Some? ==> 10 <= req.upDelay.value <= 32767)
    && match (req.maintStart, req.maintEnd)
       case (None, None) => true
       case (Some(None), Some(None)) => true
       case (Some(Some(s)), Some(Some(e))) => 0 <= s <= 1439 && 0 <= e <= 1439 && s != e
       case _ => false
  }

  /** The checks of the settings handler, and the one it answers with: the first that fails. */
  lemma RejectionIsExact(req: UpdateSettings)
    ensures Rejection(req).None? <==> Acceptable(req)
    ensures Rejection(req) == Some(BadDelay) <==> req.upDelay.Some? && !(10 <= req.upDelay.value <= 32767)
    ensures Rejection(req).Some? && Rejection(req) != Some(BadDelay) ==>
              match (req.maintStart, req.maintEnd)
              case (Some(Some(s)), Some(Some(e))) =>
                Rejection(req) == Some(if s != e || s < 0 || s > 1439 then BoundOutOfRange else EmptyWindow)
              case (Some(_), Some(_)) => Rejection(req) == Some(MixedBounds)
              case _ => Rejection(req) == Some(OneBoundOnly)
  {
  }

  // ----- Joining -----

  /** Anyone with an invite on the list may join, and without one the first admin; if the delay and the language can be
      accepted and the account at the ntfy server could be made. */
  predicate MayJoin(w: World, o: NewUserReq, drawn: Drawn) {
    && (if o.invite.Some? then o.invite.value in w.mem.inviteTokens else w.mem.users == map[] && o.userType == Admin)
    && (o.upDelay.Some? ==> 10 <= o.upDelay.value <= 32767) && LetterCode(o.languageCode) && drawn.ntfy.Some?
  }

  /** Who comes by an invite is a normal user without invites, whatever they asked for; the first admin gets the limit
      they asked for. Both get the delay they asked for or a minute, their language, their choice of notifications,
      no window, and a device that has not connected. */
  predicate Newcomer(st: UserState, o: NewUserReq, drawn: Drawn)
    requires drawn.ntfy.Some?
  {
    && st.user.userType == (if o.invite.Some? then Normal else o.userType)
    && st.user.invitesLimit == (if o.invite.Some? then 0 else o.invitesLimit) && st.user.invitesUsed == 0
    && st.user.upDelay == (if o.upDelay.Some? then o.upDelay.value else 60) && st.user.languageCode == o.languageCode
    && st.user.maintStart == None && st.user.maintEnd == None
    && st.user.id == drawn.userId && st.user.accessToken == drawn.token && st.user.createdAt == drawn.now
    && st.user.ntfyId == st.ntfy.id && st.ntfy == drawn.ntfy.value.(enabled := o.ntfyEnabled)
    && st.uptime == UptimeRow(drawn.uptimeId, drawn.now, drawn.now, Uninitialized, drawn.userId, drawn.now, None)
  }

  lemma PreparedIsNewcomer(o: NewUserReq, drawn: Drawn)
    ensures Prepared(o, drawn).Some? <==>
            (o.upDelay.Some? ==> 10 <= o.upDelay.value <= 32767) && LetterCode(o.languageCode) && drawn.ntfy.Some?
    ensures Prepared(o, drawn).Some? ==> Newcomer(Prepared(o, drawn).value, o, drawn)
  {
    hide LanguageAccepted, LetterCode;
    LanguageAcceptedIff(o.languageCode);
  }

  /** The table takes the new rows, and the invite is unused there. */
  predicate Storable(db: Db, drawn: Drawn, invite: Option<ID>) {
    && drawn.userId !in db.users && drawn.uptimeId !in db.uptimes
    && (drawn.ntfy.Some? ==> drawn.ntfy.value.id !in db.ntfy)
    && (invite.Some? ==> invite.value in db.invites && !db.invites[invite.value].isUsed)
  }

  /** A request to join is granted if and only if it may be and can be stored; then the newcomer is there with their
      token, the invite is spent and names them, and everybody else is as before. Otherwise nothing changes. */
  lemma JoiningIsExact(w: World, o: NewUserReq, drawn: Drawn)
    ensures var w' := CreateUser(w, o, drawn);
            if !MayJoin(w, o, drawn) then w' == w
            else
              var invite := if o.invite.Some? then Some(w.mem.inviteTokens[o.invite.value]) else None;
              if !Storable(w.db, drawn, invite) then w' == w
              else
                && drawn.userId in w'.mem.users && Newcomer(w'.mem.users[drawn.userId], o, drawn)
                && w'.mem.users == w.mem.users[drawn.userId := w'.mem.users[drawn.userId]]
                && w'.db.users == w.db.users[drawn.userId := w'.mem.users[drawn.userId].user]
                && w'.db.ntfy == w.db.ntfy[drawn.ntfy.value.id := w'.mem.users[drawn.userId].ntfy]
                && w'.db.uptimes == w.db.uptimes[drawn.uptimeId := w'.mem.users[drawn.userId].uptime]
                && w'.mem.tokens == w.mem.tokens[drawn.token := drawn.userId]
                && (if invite.None? then w'.mem.inviteTokens == w.mem.inviteTokens && w'.db.invites == w.db.invites
                    else
                      var inv := w.db.invites[invite.value];
                      && w'.mem.inviteTokens == w.mem.inviteTokens - {o.invite.value}
                      && w'.db.invites == w.db.invites[invite.value := inv.(isUsed := true,
                                                                            userId := Some(drawn.userId))])
  {
    hide LetterCode, Prepared, Newcomer;
    PreparedIsNewcomer(o, drawn);
    if MayJoin(w, o, drawn) { NewcomerIsInsertable(o, drawn); }
  }

  lemma NewcomerIsInsertable(o: NewUserReq, drawn: Drawn)
    requires Prepared(o, drawn).Some?
    ensures var st := Prepared(o, drawn).value;
            && st.user.id == drawn.userId && st.user.accessToken == drawn.token && st.ntfy.id == drawn.ntfy.value.id
            && st.user.ntfyId == st.ntfy.id && st.uptime.id == drawn.uptimeId && st.uptime.userId == st.user.id
            && st.user.maintStart == None && st.user.maintEnd == None
  {
  }

  // ----- Invites -----

  /** Below their limit, by the map's count and by the table's, and only there, an owner gets a new invite: it is on the
      list, unused and theirs, and counts in both. */
  lemma InvitingIsExact(w: World, owner: ID, id: ID, token: string, now: Time)
    ensures var w' := MakeInvite(w, owner, id, token, now);
            if && owner in w.mem.users && w.mem.users[owner].user.invitesUsed < w.mem.users[owner].user.invitesLimit
               && owner in w.db.users && w.db.users[owner].invitesUsed < w.db.users[owner].invitesLimit
               && id !in w.db.invites
            then
              var u, row := w.mem.users[owner].user, w.db.users[owner];
              && w'.mem.inviteTokens == w.mem.inviteTokens[token := id]
              && w'.mem.users == w.mem.users[owner := w.mem.users[owner].(user := u.(invitesUsed := u.invitesUsed + 1))]
              && w'.mem.tokens == w.mem.tokens
              && w'.db == w.db.(invites := w.db.invites[id := Invite(id, now, token, false, owner, None)],
                                users := w.db.users[owner := row.(invitesUsed := row.invitesUsed + 1)])
            else w' == w
  {
  }

  /** The invites made with these ids and tokens, one after another. */
  function InviteAll(w: World, owner: ID, drawn: seq<(ID, string)>, now: Time): World {
    if drawn == [] then w
    else
      var (id, token) := drawn[|drawn| - 1];
      MakeInvite(InviteAll(w, owner, drawn[..|drawn| - 1], now), owner, id, token, now)
  }

  /** Ids and tokens never in use, and each once. */
  ghost predicate NewDraws(w: World, drawn: seq<(ID, string)>) {
    && (forall i | 0 <= i < |drawn| :: drawn[i].0 !in w.db.invites && drawn[i].1 !in w.mem.inviteTokens)
    && (forall i, j | 0 <= i < j < |drawn| :: drawn[i].0 != drawn[j].0 && drawn[i].1 != drawn[j].1)
  }

  ghost predicate AllListed(w: World, owner: ID, drawn: seq<(ID, string)>, now: Time) {
    forall i | 0 <= i < |drawn| ::
      && drawn[i].1 in w.mem.inviteTokens && w.mem.inviteTokens[drawn[i].1] == drawn[i].0
      && drawn[i].0 in w.db.invites
      && w.db.invites[drawn[i].0] == Invite(drawn[i].0, now, drawn[i].1, false, owner, None)
  }

  function TokensIn(drawn: seq<(ID, string)>): set<string> {
    set d | d in drawn :: d.1
  }

  function IdsIn(drawn: seq<(ID, string)>): set<ID> {
    set d | d in drawn :: d.0
  }

  /** All these invites are listed, they count, and nothing else is. */
  ghost predicate Invited(w: World, w': World, owner: ID, drawn: seq<(ID, string)>, now: Time) {
    && AllListed(w', owner, drawn, now)
    && w'.mem.inviteTokens.Keys == w.mem.inviteTokens.Keys + TokensIn(drawn)
    && w'.db.invites.Keys == w.db.invites.Keys + IdsIn(drawn)
    && owner in w.mem.users && owner in w'.mem.users
    && w'.mem.users[owner].user ==
       w.mem.users[owner].user.(invitesUsed := w.mem.users[owner].user.invitesUsed + |drawn|)
  }

  lemma OneMoreDraw(drawn: seq<(ID, string)>, last: (ID, string))
    ensures TokensIn(drawn + [last]) == TokensIn(drawn) + {last.1} && IdsIn(drawn + [last]) == IdsIn(drawn) + {last.0}
  {
    forall d | d in drawn + [last] ensures d in drawn || d == last {
    }
    assert (drawn + [last])[|drawn|] == last;
    forall d | d in drawn ensures d in drawn + [last] {
    }
  }

  /** The last draw is none of those before. */
  lemma LastIsAnother(w: World, drawn: seq<(ID, string)>, last: (ID, string))
    requires NewDraws(w, drawn + [last])
    ensures last.0 !in IdsIn(drawn) && last.1 !in TokensIn(drawn)
    ensures last.0 !in w.db.invites && last.1 !in w.mem.inviteTokens && NewDraws(w, drawn)
  {
    var all := drawn + [last];
    assert all[|drawn|] == last && forall i | 0 <= i < |drawn| :: all[i] == drawn[i];
    forall d | d in drawn ensures d.0 != last.0 && d.1 != last.1 {
      var i :| 0 <= i < |drawn| && drawn[i] == d;
      assert all[i].0 != all[|drawn|].0 && all[i].1 != all[|drawn|].1;
    }
  }

  lemma LastIsNew(w: World, prior: World, owner: ID, drawn: seq<(ID, string)>, last: (ID, string), now: Time)
    requires Invited(w, prior, owner, drawn, now) && NewDraws(w, drawn + [last])
    ensures last.0 !in prior.db.invites && last.1 !in prior.mem.inviteTokens && NewDraws(w, drawn)
  {
    hide AllListed, NewDraws, IdsIn, TokensIn;
    LastIsAnother(w, drawn, last);
    assert last.0 !in prior.db.invites.Keys && last.1 !in prior.mem.inviteTokens.Keys;
  }

  /** What was listed stays so, and the new one is. */
  lemma AlsoListed(prior: World, w': World, owner: ID, drawn: seq<(ID, string)>, last: (ID, string), now: Time)
    requires AllListed(prior, owner, drawn, now) && last.0 !in prior.db.invites && last.1 !in prior.mem.inviteTokens
    requires w'.mem.inviteTokens == prior.mem.inviteTokens[last.1 := last.0]
    requires w'.db.invites == prior.db.invites[last.0 := Invite(last.0, now, last.1, false, owner, None)]
    ensures AllListed(w', owner, drawn + [last], now)
  {
  }

  lemma OwnerAgrees(w: World, owner: ID)
    requires Agrees(w) && owner in w.mem.users
    ensures owner in w.db.users && w.db.users[owner] == w.mem.users[owner].user
  {
  }

  lemma OneMoreInvite(w: World, prior: World, owner: ID, drawn: seq<(ID, string)>, last: (ID, string), now: Time)
    requires Agrees(prior) && Invited(w, prior, owner, drawn, now) && NewDraws(w, drawn + [last])
    requires w.mem.users[owner].user.invitesUsed + |drawn| < w.mem.users[owner].user.invitesLimit
    ensures Invited(w, MakeInvite(prior, owner, last.0, last.1, now), owner, drawn + [last], now)
    ensures last.0 !in prior.db.invites && last.1 !in prior.mem.inviteTokens
  {
    hide Agrees, MakeInvite, TokensIn, IdsIn, AllListed, NewDraws;
    LastIsNew(w, prior, owner, drawn, last, now);
    OneMoreDraw(drawn, last);
    OwnerAgrees(prior, owner);
    InvitingIsExact(prior, owner, last.0, last.1, now);
    AlsoListed(prior, MakeInvite(prior, owner, last.0, last.1, now), owner, drawn, last, now);
  }

  lemma NoneInvited(w: World, owner: ID, now: Time)
    requires owner in w.mem.users
    ensures Invited(w, w, owner, [], now)
  {
  }

  /** An owner can use up the whole of their limit: as many new invites as are left of it are all listed, and the next
      one is refused. */
  lemma {:induction false} LimitCanBeReached(w: World, owner: ID, drawn: seq<(ID, string)>, now: Time)
    requires Agrees(w) && owner in w.mem.users && NewDraws(w, drawn)
    requires w.mem.users[owner].user.invitesUsed + |drawn| <= w.mem.users[owner].user.invitesLimit
    ensures var w' := InviteAll(w, owner, drawn, now);
            && Agrees(w') && Invited(w, w', owner, drawn, now)
            && (w.mem.users[owner].user.invitesUsed + |drawn| == w.mem.users[owner].user.invitesLimit ==>
                  forall id, token | id !in w'.db.invites :: MakeInvite(w', owner, id, token, now) == w')
  {
    hide Agrees, MakeInvite, AllListed;
    var w' := InviteAll(w, owner, drawn, now);
    if drawn == [] {
      NoneInvited(w, owner, now);
    } else {
      var before, last := drawn[..|drawn| - 1], drawn[|drawn| - 1];
      LimitCanBeReached(w, owner, before, now);
      assert drawn == before + [last];
      OneMoreInvite(w, InviteAll(w, owner, before, now), owner, before, last, now);
      Agreement.MakeInviteAgrees(InviteAll(w, owner, before, now), owner, last.0, last.1, now);
    }
    forall id, token | id !in w'.db.invites
        && w.mem.users[owner].user.invitesUsed + |drawn| == w.mem.users[owner].user.invitesLimit
      ensures MakeInvite(w', owner, id, token, now) == w'
    {
      InvitingIsExact(w', owner, id, token, now);
    }
  }

  /** An owner can delete their own invites and no others. Its tokens are off the list, and where there was one the slot
      is given back in the map. */
  lemma WithdrawingIsExact(w: World, owner: ID, id: ID)
    ensures var w' := DropInvite(w, owner, id);
            if !(id in w.db.invites && w.db.invites[id].ownerId == owner) then w' == w
            else
              var listed := exists token :: token in w.mem.inviteTokens && w.mem.inviteTokens[token] == id;
              && w'.db == DeleteInvite(w.db, id, owner).0 && w'.mem.tokens == w.mem.tokens
              && (forall token :: token in w'.mem.inviteTokens <==>
                    token in w.mem.inviteTokens && w.mem.inviteTokens[token] != id)
              && (forall token | token in w'.mem.inviteTokens ::
                    w'.mem.inviteTokens[token] == w.mem.inviteTokens[token])
              && w'.mem.users == (if listed && owner in w.mem.users
                                  then
                                    var u := w.mem.users[owner].user;
                                    w.mem.users[owner := w.mem.users[owner].(
                                                           user := u.(invitesUsed := u.invitesUsed - 1))]
                                  else w.mem.users)
  {
  }

  // ----- Leaving -----

  /** Anybody stored but the caller can be deleted. They are gone from the maps with their token and the tokens of their
      unused invites, and everybody else is as before. */
  lemma LeavingIsExact(w: World, admin: ID, uid: ID)
    ensures var w' := RemoveUserAs(w, admin, uid);
            if uid == admin || uid !in w.db.users then w' == w
            else
              && Ok(w'.db) == DeleteUser(w.db, uid)
              && w'.mem.users == w.mem.users - {uid}
              && w'.mem.tokens == (if uid in w.mem.users then w.mem.tokens - {w.mem.users[uid].user.accessToken}
                                   else w.mem.tokens)
              && (forall token :: token in w'.mem.inviteTokens <==>
                    token in w.mem.inviteTokens
                    && !(var i := w.mem.inviteTokens[token];
                         i in w.db.invites && w.db.invites[i].ownerId == uid && !w.db.invites[i].isUsed))
              && (forall token | token in w'.mem.inviteTokens ::
                    w'.mem.inviteTokens[token] == w.mem.inviteTokens[token])
  {
    hide DropUsers;
    if uid !in w.mem.users { assert w.mem.users - {uid} == w.mem.users; }
  }

  // ----- One's own state -----

  /** The old token is refused from now on, the new one accepted, and all others as before. */
  lemma RegeneratingIsExact(w: World, uid: ID, token: string)
    ensures var w' := Regenerate(w, uid, token);
            && w'.db == SetToken(w.db, uid, token)
            && (if uid !in w.mem.users then w'.mem == w.mem
                else
                  var d := w.mem.users[uid];
                  && Caller(w'.mem, token) == Some(uid)
                  && (d.user.accessToken != token ==> Caller(w'.mem, d.user.accessToken) == None)
                  && (forall t | t != token && t != d.user.accessToken :: Caller(w'.mem, t) == Caller(w.mem, t))
                  && w'.mem.users == w.mem.users[uid := d.(user := d.user.(accessToken := token))]
                  && w'.mem.inviteTokens == w.mem.inviteTokens)
  {
  }

  /** One user's entry is replaced, and nothing else in the maps. */
  ghost predicate Only(m: Mem, m': Mem, uid: ID, d: UserState) {
    m' == m.(users := m.users[uid := d])
  }

  /** An acceptable request sets what it mentions; any other changes nothing. */
  lemma SettingIsExact(w: World, uid: ID, req: UpdateSettings)
    requires uid in w.mem.users && (uid in w.db.users ==> ValidSettings(w.db.users[uid]))
    ensures var w', d := ChangeSettings(w, uid, req), w.mem.users[uid];
            if !Acceptable(req) then w' == w
            else
              && Ok(w'.db) == UpdateSettingsRow(w.db, uid, req)
              && Only(w.mem, w'.mem, uid, d.(user := d.user.(
                                               upDelay := if req.upDelay.Some? then req.upDelay.value
                                               else d.user.upDelay,
                                               maintStart := if req.maintStart.Some? then req.maintStart.value
                                               else d.user.maintStart,
                                               maintEnd := if req.maintEnd.Some? then req.maintEnd.value
                                               else d.user.maintEnd)))
  {
    hide Acceptable;
    RejectionIsExact(req);
  }

  lemma SpeakingIsExact(w: World, uid: ID, code: string)
    requires uid in w.mem.users
    ensures var w', d := ChangeLanguage(w, uid, code), w.mem.users[uid];
            if !LetterCode(code) then w' == w
            else
              && w'.db == SetLanguage(w.db, uid, code)
              && Only(w.mem, w'.mem, uid, d.(user := d.user.(languageCode := code)))
  {
    hide LetterCode, LanguageAccepted;
    LanguageAcceptedIff(code);
  }

  lemma SwitchingIsExact(w: World, uid: ID, on: bool)
    requires uid in w.mem.users
    ensures var w', d := ChangeEnabled(w, uid, on), w.mem.users[uid];
            w'.db == SetEnabled(w.db, d.ntfy.id, on) && Only(w.mem, w'.mem, uid, d.(ntfy := d.ntfy.(enabled := on)))
  {
  }

  /** A pause is granted while the device is up or down, and an unpause while it is paused; what is granted is written,
      and of what is refused nothing. */
  lemma PausingIsExact(w: World, uid: ID, at: Time)
    requires uid in w.mem.users
    ensures var d := w.mem.users[uid];
            var paused, resumed := DeviceAndWrite(w, uid, Event.Pause(at)), DeviceAndWrite(w, uid, Event.Unpause(at));
            && (if d.uptime.status in {Up, Down}
                then
                  var row := d.uptime.(status := Paused, prePause := Some(d.uptime.status));
                  Only(w.mem, paused.mem, uid, d.(uptime := row)) && paused.db == UpdateUptime(w.db, row)
                else paused == w)
            && (if d.uptime.status == Paused
                then
                  var row := d.uptime.(status := if d.uptime.prePause.Some? then d.uptime.prePause.value else Up,
                                       prePause := None, touchedAt := at, changedAt := at);
                  Only(w.mem, resumed.mem, uid, d.(uptime := row)) && resumed.db == UpdateUptime(w.db, row)
                else resumed == w)
  {
    hide UpdateUptime;
  }

  /** A ping is never refused, and what it makes of the device is written. */
  lemma PingingIsExact(w: World, uid: ID, wall: Time, at: Time)
    requires uid in w.mem.users
    ensures var d, w' := w.mem.users[uid], DeviceAndWrite(w, uid, Ping(wall, at));
            var d' := Step(d, Ping(wall, at));
            Only(w.mem, w'.mem, uid, d') && w'.db == UpdateUptime(w.db, d'.uptime)
  {
  }

  // ----- The guards -----

  /** A request with an unknown token changes nothing, nor does one of the three reserved for admins without an admin's
      token. */
  lemma StrangersChangeNothing(w: World, r: Request)
    requires !(r.ReqCreateUser? || r.ReqScan? || r.Restart?)
    requires || r.token !in w.mem.tokens
             || ((r.ReqCreateInvite? || r.ReqDeleteInvite? || r.ReqDeleteUser?)
                 && !(w.mem.tokens[r.token] in w.mem.users
                      && w.mem.users[w.mem.tokens[r.token]].user.userType == Admin))
    ensures Handle(w, r) == w
  {
    hide MakeInvite, DropInvite, RemoveUserAs, Regenerate, ChangeSettings, ChangeLanguage, ChangeEnabled,
      DeviceAndWrite;
  }

  /** Whoever holds a token is served under the name it stands for, and an admin also with what is reserved. */
  lemma HoldersAreServed(w: World, r: Request, uid: ID)
    requires !(r.ReqCreateUser? || r.ReqScan? || r.Restart?)
    requires r.token in w.mem.tokens && w.mem.tokens[r.token] == uid && uid in w.mem.users
    ensures match r
            case ReqRegenerate(_, token) => Handle(w, r) == Regenerate(w, uid, token)
            case ReqSettings(_, req) => Handle(w, r) == ChangeSettings(w, uid, req)
            case ReqLanguage(_, code) => Handle(w, r) == ChangeLanguage(w, uid, code)
            case ReqEnabled(_, on) => Handle(w, r) == ChangeEnabled(w, uid, on)
            case ReqPing(_, wall, at) => Handle(w, r) == DeviceAndWrite(w, uid, Ping(wall, at))
            case ReqPause(_, at) => Handle(w, r) == DeviceAndWrite(w, uid, Pause(at))
            case ReqUnpause(_, at) => Handle(w, r) == DeviceAndWrite(w, uid, Unpause(at))
            case _ =>
              w.mem.users[uid].user.userType == Admin ==>
                match r
                case ReqCreateInvite(_, id, token, now) => Handle(w, r) == MakeInvite(w, uid, id, token, now)
                case ReqDeleteInvite(_, id) => Handle(w, r) == DropInvite(w, uid, id)
                case ReqDeleteUser(_, target) => Handle(w, r) == RemoveUserAs(w, uid, target)
                case _ => true
  {
    hide MakeInvite, DropInvite, RemoveUserAs, Regenerate, ChangeSettings, ChangeLanguage, ChangeEnabled,
      DeviceAndWrite;
  }

  // ----- Restarts -----

  /** What a restart makes of the tables: every user with an account is there, as stored, with the newest of their
      uptime
      rows; their tokens are accepted, and the tokens of the unused invites listed, and no others. It fails if and only
      if one of them has no uptime row. */
  lemma LoadingIsExact(db: Db, m: Mem)
    requires IsLoadOf(db, m)
    ensures forall u :: u in m.users <==> u in db.users && db.users[u].ntfyId in db.ntfy
    ensures forall u | u in m.users ::
              && m.users[u].user == db.users[u] && m.users[u].ntfy == db.ntfy[db.users[u].ntfyId]
              && (exists r :: r in db.uptimes && db.uptimes[r] == m.users[u].uptime)
              && m.users[u].uptime.userId == u
              && (forall r | r in db.uptimes && db.uptimes[r].userId == u ::
                    db.uptimes[r].createdAt <= m.users[u].uptime.createdAt)
    ensures forall token :: token in m.tokens <==> exists u :: u in m.users && m.users[u].user.accessToken == token
    ensures forall token | token in m.tokens ::
              m.tokens[token] in m.users && m.users[m.tokens[token]].user.accessToken == token
    ensures forall token :: token in m.inviteTokens <==>
              exists i :: i in db.invites && !db.invites[i].isUsed && db.invites[i].token == token
    ensures forall token | token in m.inviteTokens ::
              && m.inviteTokens[token] in db.invites && !db.invites[m.inviteTokens[token]].isUsed
              && db.invites[m.inviteTokens[token]].token == token
  {
    forall u | u in m.users ensures IsLatest(db, u, m.users[u].uptime) {
      assert IsLoaded(db, m.users[u]);
    }
  }

  lemma LoadingFailsIff(db: Db)
    ensures CanLoad(db) <==>
            forall u | u in db.users && db.users[u].ntfyId in db.ntfy ::
              exists r :: r in db.uptimes && db.uptimes[r].userId == u
  {
    if CanLoad(db) {
      forall u | u in db.users && db.users[u].ntfyId in db.ntfy
        ensures exists r :: r in db.uptimes && db.uptimes[r].userId == u
      {
        assert u in JoinedUsers(db);
      }
    }
  }
}
