/** What each transaction does to each row, for every content of the tables: when it succeeds, what is in the rows it
    writes, and that it leaves all others alone. */
module Rows {
  import opened Base
  import opened Uptime
  import opened Models
  import opened Tables

  /** All but one row of a table are as before. */
  ghost predicate OnlyRow<V>(was: map<ID, V>, now: map<ID, V>, id: ID) {
    now.Keys + {id} == was.Keys + {id} && forall k | k in was && k != id :: now[k] == was[k]
  }

  ghost predicate WindowColumnsOk(u: User) {
    match (u.maintStart, u.maintEnd)
    case (Some(s), Some(e)) => 0 <= s <= 1439 && 0 <= e <= 1439 && s != e
    case (None, None) => true
    case _ => false
  }

  /** A new user is stored if and only if all three ids are new, the references resolve, the window columns pass the
      table's checks, and the invite, if one is given, is there and unused. It then names the user. */
  lemma StateIsStoredIff(db: Db, st: UserState, invite: Option<ID>)
    ensures CreateState(db, st, invite).Ok? <==>
            && st.ntfy.id !in db.ntfy && st.user.id !in db.users && st.uptime.id !in db.uptimes
            && (st.user.ntfyId == st.ntfy.id || st.user.ntfyId in db.ntfy)
            && (st.uptime.userId == st.user.id || st.uptime.userId in db.users)
            && WindowColumnsOk(st.user)
            && (invite.Some? ==> invite.value in db.invites && !db.invites[invite.value].isUsed)
    ensures CreateState(db, st, invite).Ok? ==>
              var db' := CreateState(db, st, invite).value;
              && db'.users == db.users[st.user.id := st.user] && db'.ntfy == db.ntfy[st.ntfy.id := st.ntfy]
              && db'.uptimes == db.uptimes[st.uptime.id := st.uptime]
              && (if invite.None? then db'.invites == db.invites
                  else && OnlyRow(db.invites, db'.invites, invite.value) && invite.value in db'.invites
                       && db'.invites[invite.value] ==
                          db.invites[invite.value].(isUsed := true, userId := Some(st.user.id)))
  {
  }

  /** An invite is stored if and only if its owner is there and below the limit, and its id is new. Then it counts. */
  lemma InviteIsStoredIff(db: Db, inv: Invite)
    ensures CreateInvite(db, inv).Ok? <==>
            && inv.ownerId in db.users && db.users[inv.ownerId].invitesUsed < db.users[inv.ownerId].invitesLimit
            && inv.id !in db.invites
    ensures CreateInvite(db, inv).Ok? ==>
              var db' := CreateInvite(db, inv).value;
              && db'.invites == db.invites[inv.id := inv] && db'.ntfy == db.ntfy && db'.uptimes == db.uptimes
              && OnlyRow(db.users, db'.users, inv.ownerId) && inv.ownerId in db'.users
              && db'.users[inv.ownerId] ==
                 db.users[inv.ownerId].(invitesUsed := db.users[inv.ownerId].invitesUsed + 1)
    ensures CreateInvite(db, inv) == Err(CreationFailed) <==>
            inv.ownerId in db.users && db.users[inv.ownerId].invitesUsed >= db.users[inv.ownerId].invitesLimit
  {
  }

  /** An invite goes if and only if it is there and the caller's own; it gives its slot back if and only if unused. */
  lemma InviteGoesIff(db: Db, id: ID, owner: ID)
    requires forall i | i in db.invites :: db.invites[i].ownerId in db.users
    ensures var (db', deleted) := DeleteInvite(db, id, owner);
            && deleted == (if id in db.invites && db.invites[id].ownerId == owner then 1 else 0)
            && db'.ntfy == db.ntfy && db'.uptimes == db.uptimes
            && db'.invites == (if deleted == 1 then db.invites - {id} else db.invites)
            && OnlyRow(db.users, db'.users, owner) && (owner in db'.users <==> owner in db.users)
            && (owner in db.users ==>
                  var slots := if deleted == 1 && !db.invites[id].isUsed then 1 else 0;
                  db'.users[owner] == db.users[owner].(invitesUsed := db.users[owner].invitesUsed - slots))
  {
  }

  /** Who goes when a user is deleted: they, and whoever shares their account at the ntfy server. */
  ghost predicate GoesWith(db: Db, uid: ID, u: ID) {
    uid in db.users && u in db.users && (u == uid || db.users[u].ntfyId == db.users[uid].ntfyId)
  }

  /** A user who is there can be deleted. Their account goes, their uptime rows and invites, and the mention of them as
      the user of an invite; nothing else changes. */
  lemma UserGoes(db: Db, uid: ID)
    ensures DeleteUser(db, uid).Ok? <==> uid in db.users
    ensures DeleteUser(db, uid).Ok? ==>
              var db' := DeleteUser(db, uid).value;
              && (forall u :: u in db'.users <==> u in db.users && !GoesWith(db, uid, u))
              && (forall u | u in db'.users :: db'.users[u] == db.users[u])
              && (forall n :: n in db'.ntfy <==> n in db.ntfy && n != db.users[uid].ntfyId)
              && (forall n | n in db'.ntfy :: db'.ntfy[n] == db.ntfy[n])
              && (forall r :: r in db'.uptimes <==> r in db.uptimes && !GoesWith(db, uid, db.uptimes[r].userId))
              && (forall r | r in db'.uptimes :: db'.uptimes[r] == db.uptimes[r])
              && (forall i :: i in db'.invites <==> i in db.invites && !GoesWith(db, uid, db.invites[i].ownerId))
              && (forall i | i in db'.invites ::
                    var inv := db.invites[i];
                    db'.invites[i] == if inv.userId.Some? && GoesWith(db, uid, inv.userId.value)
                                      then inv.(userId := None) else inv)
  {
  }

  /** One column of one user, or nothing if they are not there. */
  lemma UserColumnIsSet(db: Db, uid: ID, token: string, language: string)
    ensures var a, b := SetToken(db, uid, token), SetLanguage(db, uid, language);
            && a == db.(users := a.users) && OnlyRow(db.users, a.users, uid) && (uid in a.users <==> uid in db.users)
            && b == db.(users := b.users) && OnlyRow(db.users, b.users, uid) && (uid in b.users <==> uid in db.users)
            && (uid in db.users ==>
                  && a.users[uid] == db.users[uid].(accessToken := token)
                  && b.users[uid] == db.users[uid].(languageCode := language))
  {
  }

  lemma EnabledIsSet(db: Db, ntfyId: ID, on: bool)
    ensures var a := SetEnabled(db, ntfyId, on);
            && a == db.(ntfy := a.ntfy) && OnlyRow(db.ntfy, a.ntfy, ntfyId) && (ntfyId in a.ntfy <==> ntfyId in db.ntfy)
            && (ntfyId in db.ntfy ==> a.ntfy[ntfyId] == db.ntfy[ntfyId].(enabled := on))
  {
  }

  /** An uptime write sets four columns of its row; whose row it is and when it was made stay. */
  lemma UptimeIsWritten(db: Db, row: UptimeRow)
    ensures var a := UpdateUptime(db, row);
            && a == db.(uptimes := a.uptimes) && OnlyRow(db.uptimes, a.uptimes, row.id)
            && (row.id in a.uptimes <==> row.id in db.uptimes)
            && (row.id in db.uptimes ==>
                  a.uptimes[row.id] == UptimeRow(db.uptimes[row.id].id, db.uptimes[row.id].createdAt, row.touchedAt,
                                                 row.status, db.uptimes[row.id].userId, row.changedAt, row.prePause))
  {
  }

  /** A settings write sets the delay if one is given and the window if both bounds are; it fails if and only if the
      table's checks refuse the window that results. Without the user it does nothing. */
  lemma SettingsAreStoredIff(db: Db, uid: ID, req: UpdateSettings)
    ensures var both := req.maintStart.Some? && req.maintEnd.Some?;
            var r := UpdateSettingsRow(db, uid, req);
            if uid !in db.users then r == Ok(db)
            else
              var u := db.users[uid];
              var u' := u.(upDelay := if req.upDelay.Some? then req.upDelay.value else u.upDelay,
                           maintStart := if both then req.maintStart.value else u.maintStart,
                           maintEnd := if both then req.maintEnd.value else u.maintEnd);
              && (r.Ok? <==> WindowColumnsOk(u'))
              && (r.Ok? ==> r.value == db.(users := db.users[uid := u']))
  {
  }
}
