/** Conservation of invites, over every sequence of transactions.

    Requests interleave only at whole transactions, so what every sequence of transactions keeps holds for any
    number of concurrent requests, whatever the in-memory maps say. Next to the tables the books remember every
    id ever drawn and every consumption, even after the rows concerned are deleted. */
module Ledger {
  import opened Base
  import opened Uptime
  import opened Models
  import opened Tables
  import Runs

  datatype Use = Use(invite: ID, owner: ID, user: ID)

  datatype Books = Books(db: Db, userIds: set<ID>, inviteIds: set<ID>, uses: seq<Use>)

  const EMPTY_BOOKS := Books(EMPTY_DB, {}, {}, [])

  datatype Tx =
    | AddState(st: UserState, invite: Option<ID>)
    | AddInvite(inv: Invite)
    | RemoveInvite(id: ID, owner: ID)
    | RemoveUser(uid: ID)
    | NewToken(uid: ID, token: string)
    | NewSettings(uid: ID, req: UpdateSettings)
    | NewLanguage(uid: ID, language: string)
    | NewEnabled(ntfyId: ID, enabled: bool)
    | WriteUptime(row: UptimeRow)

  function Commit(b: Books, tx: Tx): Books {
    match tx
    case AddState(st, invite) =>
      (match CreateState(b.db, st, invite)
       case Err(_) => b
       case Ok(db) =>
         var use := if invite.Some? && invite.value in b.db.invites
                    then [Use(invite.value, b.db.invites[invite.value].ownerId, st.user.id)] else [];
         b.(db := db, userIds := b.userIds + {st.user.id}, uses := b.uses + use))
    case AddInvite(inv) =>
      (match CreateInvite(b.db, inv)
       case Err(_) => b
       case Ok(db) => b.(db := db, inviteIds := b.inviteIds + {inv.id}))
    case RemoveInvite(id, owner) => b.(db := DeleteInvite(b.db, id, owner).0)
    case RemoveUser(uid) => (match DeleteUser(b.db, uid) case Err(_) => b case Ok(db) => b.(db := db))
    case NewToken(uid, token) => b.(db := SetToken(b.db, uid, token))
    case NewSettings(uid, req) => (match UpdateSettingsRow(b.db, uid, req) case Err(_) => b case Ok(db) => b.(db := db))
    case NewLanguage(uid, language) => b.(db := SetLanguage(b.db, uid, language))
    case NewEnabled(ntfyId, enabled) => b.(db := SetEnabled(b.db, ntfyId, enabled))
    case WriteUptime(row) => b.(db := UpdateUptime(b.db, row))
  }

  /** Ids are drawn at random and never come twice; users and invites enter as their constructors make them. */
  predicate Fresh(b: Books, tx: Tx) {
    match tx
    case AddState(st, _) => st.user.id !in b.userIds && st.user.invitesUsed == 0
    case AddInvite(inv) => inv.id !in b.inviteIds && !inv.isUsed
    case _ => true
  }

  function Run(b: Books, txs: seq<Tx>): Books {
    Runs.Fold(Commit, b, txs)
  }

  predicate AllFresh(b: Books, txs: seq<Tx>) {
    txs == [] || (AllFresh(b, txs[..|txs| - 1]) && Fresh(Run(b, txs[..|txs| - 1]), txs[|txs| - 1]))
  }

  /** How many invites of `owner` have ever been consumed. */
  function UsesOf(uses: seq<Use>, owner: ID): nat {
    if uses == [] then 0
    else UsesOf(uses[..|uses| - 1], owner) + if uses[|uses| - 1].owner == owner then 1 else 0
  }

  predicate Conserved(b: Books, owner: ID)
    requires owner in b.db.users
  {
    var u := b.db.users[owner];
    u.invitesUsed == |UnusedOf(b.db, owner)| + UsesOf(b.uses, owner) <= Max(u.invitesLimit, 0)
  }

  /** The ids in the tables have been drawn, and invites belong to users. */
  ghost predicate Rooted(b: Books) {
    && b.db.users.Keys <= b.userIds && b.db.invites.Keys <= b.inviteIds
    && (forall i | i in b.db.invites :: b.db.invites[i].ownerId in b.db.users)
    && (forall k | 0 <= k < |b.uses| :: b.uses[k].owner in b.userIds && b.uses[k].user in b.userIds)
  }

  /** No invite is consumed twice, nor open again once consumed. */
  ghost predicate UsedOnce(b: Books) {
    && (forall k | 0 <= k < |b.uses| :: b.uses[k].invite in b.inviteIds && !Unused(b.db, b.uses[k].invite))
    && (forall j, k | 0 <= j < k < |b.uses| :: b.uses[j].invite != b.uses[k].invite && b.uses[j].user != b.uses[k].user)
  }

  ghost predicate Balanced(b: Books) {
    Rooted(b) && UsedOnce(b) && forall o | o in b.db.users :: Conserved(b, o)
  }

  lemma {:induction false} NoUsesOfStranger(uses: seq<Use>, owner: ID)
    requires forall k | 0 <= k < |uses| :: uses[k].owner != owner
    ensures UsesOf(uses, owner) == 0
  {
    if uses != [] {
      NoUsesOfStranger(uses[..|uses| - 1], owner);
    }
  }

  lemma UsesAppend(uses: seq<Use>, use: Use, owner: ID)
    ensures UsesOf(uses + [use], owner) == UsesOf(uses, owner) + if use.owner == owner then 1 else 0
  {
    assert (uses + [use])[..|uses|] == uses;
  }

  lemma InsertBalanced(b: Books, st: UserState)
    requires Balanced(b) && Fresh(b, AddState(st, None))
    ensures Balanced(b.(db := InsertState(b.db, st), userIds := b.userIds + {st.user.id}))
  {
    var b' := b.(db := InsertState(b.db, st), userIds := b.userIds + {st.user.id});
    forall o | o in b'.db.users ensures Conserved(b', o) {
      assert UnusedOf(b'.db, o) == UnusedOf(b.db, o);
      if o == st.user.id {
        assert UnusedOf(b'.db, o) == {};
        NoUsesOfStranger(b'.uses, o);
      } else {
        assert Conserved(b, o);
      }
    }
  }

  lemma ConsumeBalanced(b: Books, invite: ID, user: ID)
    requires Balanced(b) && Unused(b.db, invite) && user in b.userIds
    requires forall k | 0 <= k < |b.uses| :: b.uses[k].user != user
    ensures Balanced(b.(db := Consume(b.db, invite, user),
                        uses := b.uses + [Use(invite, b.db.invites[invite].ownerId, user)]))
  {
    var use := Use(invite, b.db.invites[invite].ownerId, user);
    var b' := b.(db := Consume(b.db, invite, user), uses := b.uses + [use]);
    assert UsedOnce(b') by {
      assert forall k | 0 <= k < |b.uses| :: b'.uses[k] == b.uses[k] && b.uses[k].invite != invite;
    }
    forall o | o in b'.db.users ensures Conserved(b', o) {
      ConsumeConserved(b, invite, user, o);
    }
  }

  lemma ConsumeConserved(b: Books, invite: ID, user: ID, o: ID)
    requires Unused(b.db, invite) && o in b.db.users && Conserved(b, o)
    ensures Conserved(b.(db := Consume(b.db, invite, user),
                         uses := b.uses + [Use(invite, b.db.invites[invite].ownerId, user)]), o)
  {
    var use := Use(invite, b.db.invites[invite].ownerId, user);
    var db' := Consume(b.db, invite, user);
    UsesAppend(b.uses, use, o);
    if use.owner == o {
      assert UnusedOf(db', o) == UnusedOf(b.db, o) - {invite};
    } else {
      assert UnusedOf(db', o) == UnusedOf(b.db, o);
    }
  }

  lemma AddStateBalanced(b: Books, st: UserState, invite: Option<ID>)
    requires Balanced(b) && Fresh(b, AddState(st, invite))
    ensures Balanced(Commit(b, AddState(st, invite)))
  {
    InsertBalanced(b, st);
    if invite.Some? && Unused(b.db, invite.value) {
      ConsumeBalanced(b.(db := InsertState(b.db, st), userIds := b.userIds + {st.user.id}), invite.value, st.user.id);
    } else {
      assert b.uses + [] == b.uses;
    }
  }

  lemma OpenAfterAdding(db: Db, db': Db, inv: Invite, o: ID)
    requires inv.id !in db.invites && !inv.isUsed && db'.invites == db.invites[inv.id := inv]
    ensures |UnusedOf(db', o)| == |UnusedOf(db, o)| + if inv.ownerId == o then 1 else 0
  {
    if inv.ownerId == o {
      assert UnusedOf(db', o) == UnusedOf(db, o) + {inv.id};
    } else {
      assert UnusedOf(db', o) == UnusedOf(db, o);
    }
  }

  lemma OpenAfterRemoving(db: Db, db': Db, id: ID, o: ID)
    requires id in db.invites && db'.invites == db.invites - {id}
    ensures |UnusedOf(db', o)| == |UnusedOf(db, o)| - if db.invites[id].ownerId == o && !db.invites[id].isUsed then 1
            else 0
  {
    if db.invites[id].ownerId == o && !db.invites[id].isUsed {
      assert UnusedOf(db', o) == UnusedOf(db, o) - {id};
    } else {
      assert UnusedOf(db', o) == UnusedOf(db, o);
    }
  }

  lemma AddInviteBalanced(b: Books, inv: Invite)
    requires Balanced(b) && Fresh(b, AddInvite(inv))
    ensures Balanced(Commit(b, AddInvite(inv)))
  {
    var b' := Commit(b, AddInvite(inv));
    if CreateInvite(b.db, inv).Ok? {
      var owner := b.db.users[inv.ownerId];
      assert b'.db.users == b.db.users[inv.ownerId := owner.(invitesUsed := owner.invitesUsed + 1)];
      assert b'.db.invites == b.db.invites[inv.id := inv] && b'.uses == b.uses;
      forall o | o in b'.db.users ensures Conserved(b', o) {
        assert Conserved(b, o);
        OpenAfterAdding(b.db, b'.db, inv, o);
      }
    }
  }

  lemma RemoveInviteBalanced(b: Books, id: ID, owner: ID)
    requires Balanced(b)
    ensures Balanced(Commit(b, RemoveInvite(id, owner)))
  {
    var b' := Commit(b, RemoveInvite(id, owner));
    if Owns(b.db, owner, id) {
      var u := b.db.users[owner];
      var used := if b.db.invites[id].isUsed then u.invitesUsed else u.invitesUsed - 1;
      assert b'.db.users == b.db.users[owner := u.(invitesUsed := used)];
      assert b'.db.invites == b.db.invites - {id} && b'.uses == b.uses;
      forall o | o in b'.db.users ensures Conserved(b', o) {
        assert Conserved(b, o);
        OpenAfterRemoving(b.db, b'.db, id, o);
      }
    }
  }

  lemma DropUsersBalanced(b: Books, gone: set<ID>, b': Books)
    requires Balanced(b) && b' == b.(db := b'.db)
    requires b'.db == DropUsers(b.db, gone).(ntfy := b'.db.ntfy)
    ensures Balanced(b')
  {
    forall o | o in b'.db.users ensures Conserved(b', o) {
      assert Conserved(b, o);
      assert UnusedOf(b'.db, o) == UnusedOf(b.db, o);
    }
  }

  lemma CountsStand(b: Books, tx: Tx)
    requires !tx.AddState? && !tx.AddInvite? && !tx.RemoveInvite? && !tx.RemoveUser?
    ensures var b' := Commit(b, tx);
            && b' == b.(db := b'.db) && b'.db.invites == b.db.invites && b'.db.users.Keys == b.db.users.Keys
            && forall u | u in b.db.users ::
                 b'.db.users[u].invitesUsed == b.db.users[u].invitesUsed
                   && b'.db.users[u].invitesLimit == b.db.users[u].invitesLimit
  {
    hide Overwritten;
  }

  lemma OthersBalanced(b: Books, tx: Tx)
    requires Balanced(b)
    requires !tx.AddState? && !tx.AddInvite? && !tx.RemoveInvite? && !tx.RemoveUser?
    ensures Balanced(Commit(b, tx))
  {
    hide Commit;
    var b' := Commit(b, tx);
    CountsStand(b, tx);
    forall o | o in b'.db.users ensures Conserved(b', o) {
      assert Conserved(b, o);
      assert UnusedOf(b'.db, o) == UnusedOf(b.db, o);
    }
  }

  lemma CommitBalanced(b: Books, tx: Tx)
    requires Balanced(b) && Fresh(b, tx)
    ensures Balanced(Commit(b, tx))
  {
    match tx
    case AddState(st, invite) => AddStateBalanced(b, st, invite);
    case AddInvite(inv) => AddInviteBalanced(b, inv);
    case RemoveInvite(id, owner) => RemoveInviteBalanced(b, id, owner);
    case RemoveUser(uid) =>
      if uid in b.db.users {
        var ntfyId := b.db.users[uid].ntfyId;
        var without := DropUsers(b.db, {uid});
        DropUsersBalanced(b, {uid}, b.(db := without));
        DropUsersBalanced(b.(db := without), Referencing(without, ntfyId), Commit(b, tx));
      }
    case _ => OthersBalanced(b, tx);
  }

  lemma {:induction false} StaysBalanced(b: Books, txs: seq<Tx>)
    requires Balanced(b) && AllFresh(b, txs)
    ensures Balanced(Run(b, txs))
  {
    if txs != [] {
      StaysBalanced(b, txs[..|txs| - 1]);
      CommitBalanced(Run(b, txs[..|txs| - 1]), txs[|txs| - 1]);
    }
  }

  /** In every reachable state an owner's used count is their unused invites plus all of theirs ever consumed,
      and never passes the limit, a negative limit counting as none; and each invite has made at most one user. */
  lemma {:induction false} InvitesAreConserved(txs: seq<Tx>)
    requires AllFresh(EMPTY_BOOKS, txs)
    ensures var b := Run(EMPTY_BOOKS, txs);
            && (forall o | o in b.db.users ::
                  b.db.users[o].invitesUsed == |UnusedOf(b.db, o)| + UsesOf(b.uses, o)
                  <= Max(b.db.users[o].invitesLimit, 0))
            && (forall j, k | 0 <= j < k < |b.uses| :: b.uses[j].invite != b.uses[k].invite)
  {
    StaysBalanced(EMPTY_BOOKS, txs);
    var b := Run(EMPTY_BOOKS, txs);
    assert forall o | o in b.db.users :: Conserved(b, o);
  }

  /** Of two requests holding the same invite the second to commit leaves no user, ntfy or uptime row behind,
      whatever is committed between the two, be it the deletion of the winner. */
  lemma LoserLeavesNothing(b: Books, winner: UserState, between: seq<Tx>, loser: UserState, invite: ID)
    requires Balanced(b) && AllFresh(b, [AddState(winner, Some(invite))] + between)
    requires Commit(b, AddState(winner, Some(invite))) != b
    ensures var late := Run(b, [AddState(winner, Some(invite))] + between);
            CreateState(late.db, loser, Some(invite)).Err? && Commit(late, AddState(loser, Some(invite))) == late
  {
    var first := [AddState(winner, Some(invite))];
    assert (first + between)[..1] == first;
    Runs.FoldOne(Commit, b, first[0]);
    AddedUse(b, winner, invite);
    StaysConsumed(b, first + between, 1, |b.uses|);
  }

  lemma AddedUse(b: Books, st: UserState, invite: ID)
    requires Commit(b, AddState(st, Some(invite))) != b
    ensures Commit(b, AddState(st, Some(invite))).uses ==
            b.uses + [Use(invite, b.db.invites[invite].ownerId, st.user.id)]
  {
  }

  lemma {:induction false} StaysConsumed(b: Books, txs: seq<Tx>, n: nat, k: nat)
    requires Balanced(b) && AllFresh(b, txs) && n <= |txs|
    requires k < |Run(b, txs[..n]).uses|
    ensures Balanced(Run(b, txs)) && k < |Run(b, txs).uses| && Run(b, txs).uses[k] == Run(b, txs[..n]).uses[k]
  {
    if n < |txs| {
      var before := txs[..|txs| - 1];
      assert before[..n] == txs[..n];
      StaysConsumed(b, before, n, k);
      CommitBalanced(Run(b, before), txs[|txs| - 1]);
    } else {
      assert txs[..n] == txs;
      StaysBalanced(b, txs);
    }
  }
}
