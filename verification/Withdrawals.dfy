/** When the deletion of an invite leaves the count in the map right, under any interleaving.

    The table decides by the row whether a slot is given back, the map by whether the invite is still on the list. */
module Withdrawals {
  import opened Base
  import opened Models
  import opened Device
  import opened Memory
  import opened Tables
  import opened Registry
  import opened Concurrent
  import opened Issued
  import opened Survival
  import opened Counts
  import Profiles
  import SoleAdmin
  import Ledger

  /** No two invites were drawn with one id. */
  ghost predicate IssuedOnce(issued: map<string, ID>, drawn: set<ID>) {
    && (forall a | a in issued :: issued[a] in drawn)
    && (forall a, b | a in issued && b in issued && issued[a] == issued[b] :: a == b)
  }

  lemma DrawnInvite(db: Db, m: Mem, task: Task, x: Env)
    ensures var f := Perform(db, m, task, x);
            && (f.tx.Some? && f.tx.value.AddInvite? ==>
                  f.next == Some(Listing(f.tx.value.inv)) && CreateInvite(db, f.tx.value.inv).Ok?)
            && (f.next.Some? && f.next.value.Listing? ==> f.tx == Some(Ledger.AddInvite(f.next.value.inv)))
            && (f.next.Some? && f.next.value.Unlisting? ==>
                  task == Serving(f.next.value.uid, AskDropInvite(f.next.value.id)) && !x.fails
                  && Owns(db, f.next.value.uid, f.next.value.id))
            && (f.tx.Some? && f.tx.value.RemoveInvite? ==>
                  task == Serving(f.tx.value.owner, AskDropInvite(f.tx.value.id)) && !x.fails
                  && Owns(db, f.tx.value.owner, f.tx.value.id))
  {
    if CreatesUser(task) {
      hide Entering, Following, CreateState, Prepared, CreateInvite;
    } else if EntersGuards(task) {
      hide Creating, Following, Step, Refused, UpdateSettingsRow, UnusedOf, CreateInvite, Rejection, LanguageAccepted;
    } else {
      hide Creating, Entering, DeleteUser, CreateInvite, OnDevice, DropInvites, HasInvite;
    }
  }

  lemma DrawnAfter(b: Ledger.Books, tx: Ledger.Tx)
    ensures var b' := Ledger.Commit(b, tx);
            && b.inviteIds <= b'.inviteIds
            && (tx.AddInvite? && CreateInvite(b.db, tx.inv).Ok? ==> tx.inv.id in b'.inviteIds)
  {
    hide SettingsInTable, Insertable, CreateInvite;
  }

  lemma MoreDrawn(issued: map<string, ID>, drawn: set<ID>, drawn': set<ID>)
    requires IssuedOnce(issued, drawn) && drawn <= drawn'
    ensures IssuedOnce(issued + map[], drawn')
  {
    assert issued + map[] == issued;
  }

  lemma OneMoreDrawn(issued: map<string, ID>, drawn: set<ID>, drawn': set<ID>, token: string, id: ID)
    requires IssuedOnce(issued, drawn) && drawn <= drawn' && id !in drawn && id in drawn'
    ensures IssuedOnce(issued + map[token := id], drawn')
  {
  }

  lemma IssuedOnceAct(s: Server, t: ID, x: Env)
    requires IssuedOnce(s.issuedInvites, s.books.inviteIds) && Allowed(s, Act(t, x))
    ensures IssuedOnce(Next(s, Act(t, x)).issuedInvites, Next(s, Act(t, x)).books.inviteIds)
  {
    hide Perform, Ledger.Commit, CreateInvite, IssuedOnce;
    DrawnInvite(s.books.db, s.mem, s.tasks[t], x);
    var f := Perform(s.books.db, s.mem, s.tasks[t], x);
    var drawn := s.books.inviteIds;
    if f.tx.Some? {
      DrawnAfter(s.books, f.tx.value);
      var drawn' := Ledger.Commit(s.books, f.tx.value).inviteIds;
      if f.tx.value.AddInvite? {
        OneMoreDrawn(s.issuedInvites, drawn, drawn', f.tx.value.inv.token, f.tx.value.inv.id);
      } else {
        MoreDrawn(s.issuedInvites, drawn, drawn');
      }
    } else {
      MoreDrawn(s.issuedInvites, drawn, drawn);
    }
  }

  lemma IssuedOnceNext(s: Server, e: Move)
    requires IssuedOnce(s.issuedInvites, s.books.inviteIds) && Allowed(s, e)
    ensures IssuedOnce(Next(s, e).issuedInvites, Next(s, e).books.inviteIds)
  {
    hide IssuedOnce;
    match e
    case Act(t, x) => IssuedOnceAct(s, t, x);
    case _ => hide Allowed;
  }

  lemma NothingIssued()
    ensures After(COLD, []) == COLD && IssuedOnce(COLD.issuedInvites, COLD.books.inviteIds)
  {
  }

  lemma {:induction false} AlwaysIssuedOnce(es: seq<Move>)
    requires AllAllowed(COLD, es)
    ensures IssuedOnce(After(COLD, es).issuedInvites, After(COLD, es).books.inviteIds)
  {
    hide Next, Allowed, IssuedOnce;
    if es == [] {
      NothingIssued();
    } else {
      AlwaysIssuedOnce(es[..|es| - 1]);
      IssuedOnceNext(After(COLD, es[..|es| - 1]), es[|es| - 1]);
    }
  }

  // ----- What is yet to be taken off the list -----

  predicate Unlists(task: Task, u: ID) {
    task.Unlisting? && task.uid == u
  }

  /** A request takes the invite off the list, or comes to do so without the user being deleted. */
  predicate Strikes(task: Task, u: ID, id: ID, token: string) {
    match task
    case Consuming(_, t) => t == token
    case Unlisting(_, i) => i == id
    case DeletingUser(target, ids) => target != u && id in ids
    case DroppingUser(_, ids) => id in ids
    case DroppingToken(_, ids) => id in ids
    case DroppingInvites(ids) => id in ids
    case _ => false
  }

  predicate Lists(task: Task, id: ID) {
    task.Listing? && task.inv.id == id
  }

  /** The invite is out of the table for good, and `t` alone takes invites of this user off the list. */
  ghost predicate Withdrawn(s: Server, t: ID, u: ID, id: ID) {
    && t in s.tasks && s.tasks[t] == Unlisting(u, id)
    && id in s.books.inviteIds && id !in s.books.db.invites
    && forall o | o in s.tasks && o != t :: !Unlists(s.tasks[o], u)
  }

  /** The invite is on the list, and only `t` takes it off. */
  ghost predicate Held(s: Server, t: ID, u: ID, id: ID, token: string) {
    && Belongs(s.mem.inviteTokens, token, id) && Belongs(s.issuedInvites, token, id)
    && forall o | o in s.tasks && o != t :: !Strikes(s.tasks[o], u, id, token)
  }

  /** The invite is not on the list, and nobody is about to put it there. */
  ghost predicate Absent(s: Server, id: ID) {
    !HasInvite(s.mem, id) && forall o | o in s.tasks :: !Lists(s.tasks[o], id)
  }

  /** The deletion of an invite of the user commits. */
  predicate Withdraws(s: Server, e: Move, u: ID) {
    && e.Act? && e.t in s.tasks && s.tasks[e.t].Serving? && s.tasks[e.t].uid == u && s.tasks[e.t].ask.AskDropInvite?
    && !e.x.fails && Owns(s.books.db, u, s.tasks[e.t].ask.id)
  }

  ghost predicate NoneWithdrawn(s: Server, es: seq<Move>, u: ID) {
    es == []
    || (NoneWithdrawn(s, es[..|es| - 1], u) && !Withdraws(After(s, es[..|es| - 1]), es[|es| - 1], u))
  }

  lemma WithdrawalPerforms(s: Server, e: Move, u: ID)
    requires Withdraws(s, e, u)
    ensures var id := s.tasks[e.t].ask.id;
            && Perform(s.books.db, s.mem, s.tasks[e.t], e.x)
            == Effect(s.mem, Some(Ledger.RemoveInvite(id, u)), Some(Unlisting(u, id)))
            && Ledger.Commit(s.books, Ledger.RemoveInvite(id, u)).inviteIds == s.books.inviteIds
            && id !in Ledger.Commit(s.books, Ledger.RemoveInvite(id, u)).db.invites
  {
    hide Creating, Following;
  }

  lemma WithdrawalEffect(s: Server, e: Move, u: ID)
    requires Withdraws(s, e, u)
    ensures var s', id := Next(s, e), s.tasks[e.t].ask.id;
            && Allowed(s, e) && s'.mem == s.mem && s'.tasks == s.tasks[e.t := Unlisting(u, id)]
            && s'.books.inviteIds == s.books.inviteIds && id !in s'.books.db.invites
            && s'.issuedInvites == s.issuedInvites
  {
    WithdrawalPerforms(s, e, u);
    hide Perform, Ledger.Commit;
    assert s.issuedInvites + map[] == s.issuedInvites;
  }

  lemma WithdrawalRefunds(s: Server, e: Move, u: ID)
    requires Withdraws(s, e, u)
    ensures Refund(s, e, u) == (if s.books.db.invites[s.tasks[e.t].ask.id].isUsed then 0 else 1)
    ensures Take(s, e, u) == 0 && !Profiles.Upsets(s, e, u)
  {
    WithdrawalPerforms(s, e, u);
    hide Perform;
  }

  // ----- One step -----

  lemma StrikesBefore(db: Db, m: Mem, task: Task, x: Env, u: ID, id: ID, token: string, issued: map<string, ID>)
    requires id !in db.invites && Belongs(issued, token, id)
    requires task.JoinFound? ==> task.o.invite.Some? && Belongs(issued, task.o.invite.value, task.invite)
    requires !(task.DeletingUser? && task.target == u) && !Strikes(task, u, id, token)
    ensures var next := Perform(db, m, task, x).next; next.Some? ==> !Strikes(next.value, u, id, token)
  {
    if CreatesUser(task) {
      hide Entering, Following, Prepared, Insertable, InsertState, Consume;
    } else if EntersGuards(task) {
      hide Creating, Following, Step, Refused, UpdateSettingsRow, Rejection, LanguageAccepted;
    } else {
      hide Creating, Entering, DeleteUser, CreateInvite, OnDevice, DropInvites, HasInvite;
    }
  }

  lemma StaysGone(s: Server, t: ID, x: Env, id: ID)
    requires Allowed(s, Act(t, x)) && InvitesKnown(s) && id in s.books.inviteIds && id !in s.books.db.invites
    ensures id in Next(s, Act(t, x)).books.inviteIds && id !in Next(s, Act(t, x)).books.db.invites
  {
    hide Perform, Ledger.Commit, RowsIssued, ListIssued, CarriesInvite, Ledger.Fresh, NewInviteTokens;
    var f := Perform(s.books.db, s.mem, s.tasks[t], x);
    if f.tx.Some? { RowsAfter(s.books, f.tx.value, s.issuedInvites); }
  }

  /** A step of another request leaves the deletion where it is. */
  lemma StaysWithdrawn(s: Server, t: ID, o: ID, x: Env, u: ID, id: ID)
    requires Withdrawn(s, t, u, id) && InvitesKnown(s) && Allowed(s, Act(o, x)) && o != t
    requires !Withdraws(s, Act(o, x), u)
    ensures Withdrawn(Next(s, Act(o, x)), t, u, id)
  {
    StaysGone(s, o, x, id);
    DrawnInvite(s.books.db, s.mem, s.tasks[o], x);
    hide Perform, Ledger.Commit, InvitesKnown, FreshDraw;
  }

  lemma StillOnList(s: Server, t: ID, o: ID, x: Env, u: ID, id: ID, token: string)
    requires Held(s, t, u, id, token) && InvitesKnown(s) && o in s.tasks && o != t
    ensures Belongs(Perform(s.books.db, s.mem, s.tasks[o], x).mem.inviteTokens, token, id)
  {
    assert CarriesInvite(s.tasks[o], s.books.db.invites, s.books.inviteIds, s.issuedInvites);
    ListAfter(s.books.db, s.mem, s.tasks[o], x);
    assert !Strikes(s.tasks[o], u, id, token);
    hide Perform, RowsIssued, ListIssued;
  }

  lemma StaysHeld(s: Server, t: ID, o: ID, x: Env, u: ID, id: ID, token: string)
    requires Withdrawn(s, t, u, id) && Held(s, t, u, id, token) && InvitesKnown(s) && Allowed(s, Act(o, x)) && o != t
    requires !Profiles.Upsets(s, Act(o, x), u)
    ensures Held(Next(s, Act(o, x)), t, u, id, token)
  {
    assert CarriesInvite(s.tasks[o], s.books.db.invites, s.books.inviteIds, s.issuedInvites);
    StrikesBefore(s.books.db, s.mem, s.tasks[o], x, u, id, token, s.issuedInvites);
    StillOnList(s, t, o, x, u, id, token);
    TokenStaysIssued(s, o, x, token, id);
    hide Perform, Ledger.Commit, InvitesKnown, FreshDraw, NewInviteTokens, Strikes;
  }

  lemma TokenStaysIssued(s: Server, o: ID, x: Env, token: string, id: ID)
    requires Allowed(s, Act(o, x)) && Belongs(s.issuedInvites, token, id)
    ensures Belongs(Next(s, Act(o, x)).issuedInvites, token, id)
  {
    hide Perform, Ledger.Commit, Ledger.Fresh;
  }

  lemma StaysAbsent(s: Server, o: ID, x: Env, id: ID)
    requires Absent(s, id) && id in s.books.inviteIds && Allowed(s, Act(o, x))
    ensures Absent(Next(s, Act(o, x)), id)
  {
    DrawnInvite(s.books.db, s.mem, s.tasks[o], x);
    ListAfter(s.books.db, s.mem, s.tasks[o], x);
    hide Perform, Ledger.Commit;
  }

  lemma TakesIt(s: Server, t: ID, x: Env, u: ID, id: ID)
    requires Withdrawn(s, t, u, id)
    ensures var s' := Next(s, Act(t, x));
            && Allowed(s, Act(t, x)) && (forall o | o in s'.tasks :: !Unlists(s'.tasks[o], u))
            && Take(s, Act(t, x), u) == (if HasInvite(s.mem, id) then 1 else 0) && Refund(s, Act(t, x), u) == 0
            && !Profiles.Upsets(s, Act(t, x), u)
  {
    hide Creating, Entering, HasInvite, DropInvites;
  }

  // ----- The guard -----

  /** The deletion by `t` of an invite of the user is to go on, and will leave the count right. */
  ghost predicate ToBeRight(s: Server, t: ID, u: ID, id: ID, token: string) {
    && Known(s, u) && Withdrawn(s, t, u, id)
    && ((Drift(s, u) == 1 && Held(s, t, u, id, token)) || (Drift(s, u) == 0 && Absent(s, id)))
  }

  ghost predicate NoneUnlists(tasks: map<ID, Task>, u: ID) {
    forall o | o in tasks :: !Unlists(tasks[o], u)
  }

  /** Or nothing of the user is to be taken off the list, and the count is right. */
  ghost predicate Right(s: Server, t: ID, u: ID, id: ID, token: string) {
    && Known(s, u) && (ToBeRight(s, t, u, id, token) || (NoneUnlists(s.tasks, u) && Drift(s, u) == 0))
  }

  /** However the run goes on while no other invite of the user is deleted: once the deletion is through, the count in
      the map with what is on its way to it is that of the table. */
  ghost predicate CountStaysRight(s: Server, u: ID) {
    forall es: seq<Move> |
      AllAllowed(s, es) && Profiles.Undisturbed(s, es, u) && NoneWithdrawn(s, es, u)
        && NoneUnlists(After(s, es).tasks, u) ::
      Known(After(s, es), u) && Drift(After(s, es), u) == 0
  }

  /** Whether the list has what the row says: an unused invite is on it, a used one neither is nor will be. */
  ghost predicate ListMatchesRow(s: Server, id: ID)
    requires id in s.books.db.invites
  {
    if s.books.db.invites[id].isUsed then Absent(s, id) else HasInvite(s.mem, id)
  }

  lemma NoRefund(s: Server, o: ID, x: Env, u: ID)
    requires o in s.tasks && !Withdraws(s, Act(o, x), u)
    ensures Refund(s, Act(o, x), u) == 0
  {
    DrawnInvite(s.books.db, s.mem, s.tasks[o], x);
    hide Perform;
  }

  lemma NoneComesToUnlist(s: Server, o: ID, x: Env, u: ID)
    requires NoneUnlists(s.tasks, u) && Allowed(s, Act(o, x)) && !Withdraws(s, Act(o, x), u)
    ensures NoneUnlists(Next(s, Act(o, x)).tasks, u) && Take(s, Act(o, x), u) == 0
  {
    DrawnInvite(s.books.db, s.mem, s.tasks[o], x);
    hide Perform, Ledger.Commit, FreshDraw;
    assert !Unlists(s.tasks[o], u);
  }

  lemma RightByOwnStep(s: Server, t: ID, x: Env, u: ID, id: ID, token: string)
    requires SoleAdmin.OwnAccounts(s.books.db) && ToBeRight(s, t, u, id, token)
    ensures Right(Next(s, Act(t, x)), t, u, id, token)
  {
    TakesIt(s, t, x, u, id);
    hide SoleAdmin.OwnAccounts, Next, Allowed, Drift, Withdrawn, Refund, Take;
    DriftNext(s, Act(t, x), u);
  }

  lemma RightByOtherStep(s: Server, t: ID, o: ID, x: Env, u: ID, id: ID, token: string)
    requires SoleAdmin.OwnAccounts(s.books.db) && InvitesKnown(s) && ToBeRight(s, t, u, id, token) && o != t
    requires Allowed(s, Act(o, x)) && !Profiles.Upsets(s, Act(o, x), u) && !Withdraws(s, Act(o, x), u)
    ensures Right(Next(s, Act(o, x)), t, u, id, token)
  {
    assert Take(s, Act(o, x), u) == 0 && id in s.books.inviteIds;
    hide SoleAdmin.OwnAccounts, Next, Allowed, Drift, Withdrawn, Held, Absent, Refund, Take, InvitesKnown, Withdraws;
    NoRefund(s, o, x, u);
    DriftNext(s, Act(o, x), u);
    StaysWithdrawn(s, t, o, x, u, id);
    if Drift(s, u) == 1 {
      StaysHeld(s, t, o, x, u, id, token);
    } else {
      StaysAbsent(s, o, x, id);
    }
  }

  lemma RightByAct(s: Server, t: ID, o: ID, x: Env, u: ID, id: ID, token: string)
    requires SoleAdmin.OwnAccounts(s.books.db) && InvitesKnown(s) && Right(s, t, u, id, token)
    requires Allowed(s, Act(o, x)) && !Profiles.Upsets(s, Act(o, x), u) && !Withdraws(s, Act(o, x), u)
    ensures Right(Next(s, Act(o, x)), t, u, id, token)
  {
    assert o in s.tasks;
    hide SoleAdmin.OwnAccounts, Next, Allowed, Drift, ToBeRight, InvitesKnown, Withdraws, Refund, Take, NoneUnlists;
    if !ToBeRight(s, t, u, id, token) {
      NoRefund(s, o, x, u);
      NoneComesToUnlist(s, o, x, u);
      DriftNext(s, Act(o, x), u);
    } else if o == t {
      RightByOwnStep(s, t, x, u, id, token);
    } else {
      RightByOtherStep(s, t, o, x, u, id, token);
    }
  }

  lemma RightByNewTask(s: Server, s': Server, o: ID, task: Task, t: ID, u: ID, id: ID, token: string)
    requires Right(s, t, u, id, token) && Known(s', u) && Drift(s', u) == Drift(s, u)
    requires s'.books == s.books && s'.mem.inviteTokens == s.mem.inviteTokens && s'.issuedInvites == s.issuedInvites
    requires o !in s.tasks && s'.tasks == s.tasks[o := task] && (Arrives(task) || task.Writing?)
    ensures Right(s', t, u, id, token)
  {
    hide Drift;
  }

  /** Arrivals and scans. */
  lemma RightByMore(s: Server, e: Move, t: ID, u: ID, id: ID, token: string)
    requires SoleAdmin.OwnAccounts(s.books.db) && Right(s, t, u, id, token)
    requires Allowed(s, e) && (e.Arrive? || e.ScanAll?)
    ensures Right(Next(s, e), t, u, id, token)
  {
    hide Right, SoleAdmin.OwnAccounts, ToPersist, Step, Scanned, Drift;
    assert Known(s, u) by { RightMeansKnown(s, t, u, id, token); }
    DriftNext(s, e, u);
    RightByNewTask(s, Next(s, e), e.t, if e.Arrive? then e.task else Writing(e.rows), t, u, id, token);
  }

  lemma RightMeansKnown(s: Server, t: ID, u: ID, id: ID, token: string)
    requires Right(s, t, u, id, token)
    ensures Known(s, u)
  {
  }

  lemma RightNext(s: Server, e: Move, t: ID, u: ID, id: ID, token: string)
    requires SoleAdmin.OwnAccounts(s.books.db) && InvitesKnown(s) && Right(s, t, u, id, token)
    requires Allowed(s, e) && !Profiles.Upsets(s, e, u) && !Withdraws(s, e, u)
    ensures Right(Next(s, e), t, u, id, token)
  {
    hide SoleAdmin.OwnAccounts, InvitesKnown, Right, Next, Allowed, Withdraws;
    if e.Act? {
      RightByAct(s, t, e.t, e.x, u, id, token);
    } else {
      RightByMore(s, e, t, u, id, token);
    }
  }

  lemma {:induction false} StaysRight(prior: seq<Move>, es: seq<Move>, t: ID, u: ID, id: ID, token: string)
    requires AllAllowed(COLD, prior)
    requires var s := After(COLD, prior);
             && Right(s, t, u, id, token)
             && AllAllowed(s, es) && Profiles.Undisturbed(s, es, u) && NoneWithdrawn(s, es, u)
    ensures Right(After(After(COLD, prior), es), t, u, id, token)
  {
    hide Right, Next, Allowed, Withdraws, Profiles.Upsets, Profiles.Sane, Present, InvitesKnown, AllListed,
      SoleAdmin.OwnAccounts;
    if es != [] {
      var before, e := es[..|es| - 1], es[|es| - 1];
      StaysRight(prior, before, t, u, id, token);
      RunsConcat(COLD, prior, before);
      AlwaysCarried(prior + before);
      Profiles.AlwaysSane(prior + before);
      Profiles.SaneFacts(After(COLD, prior + before));
      RightNext(After(COLD, prior + before), e, t, u, id, token);
    }
  }

  /** The invite's own token is on the list, and nobody else is about to take it off. */
  lemma HeldAtFirst(s: Server, t: ID, u: ID, id: ID)
    requires InvitesKnown(s) && IssuedOnce(s.issuedInvites, s.books.inviteIds)
    requires Owns(s.books.db, u, id) && !s.books.db.invites[id].isUsed && HasInvite(s.mem, id)
    ensures var token := s.books.db.invites[id].token;
            && Belongs(s.mem.inviteTokens, token, id) && Belongs(s.issuedInvites, token, id)
            && forall o | o in s.tasks :: !Strikes(s.tasks[o], u, id, token)
  {
    var token := s.books.db.invites[id].token;
    assert Belongs(s.issuedInvites, token, id);
    var other :| other in s.mem.inviteTokens && s.mem.inviteTokens[other] == id;
    assert Belongs(s.issuedInvites, other, id);
    forall o | o in s.tasks ensures !Strikes(s.tasks[o], u, id, token) {
      assert CarriesInvite(s.tasks[o], s.books.db.invites, s.books.inviteIds, s.issuedInvites);
    }
  }

  lemma AbsentAfter(s: Server, e: Move, u: ID)
    requires Withdraws(s, e, u) && Absent(s, s.tasks[e.t].ask.id)
    ensures Absent(Next(s, e), s.tasks[e.t].ask.id)
  {
    WithdrawalEffect(s, e, u);
    hide Next, Allowed;
  }

  /** The counts agree before an invite of the user is deleted, and none is being deleted. */
  ghost predicate RightSoFar(s: Server, u: ID) {
    Known(s, u) && Drift(s, u) == 0 && NoneUnlists(s.tasks, u)
  }

  lemma WithdrawnAtFirst(s: Server, e: Move, u: ID)
    requires InvitesKnown(s) && Withdraws(s, e, u) && NoneUnlists(s.tasks, u)
    ensures Withdrawn(Next(s, e), e.t, u, s.tasks[e.t].ask.id)
  {
    WithdrawalEffect(s, e, u);
    assert s.tasks[e.t].ask.id in s.books.db.invites;
    hide Next, Allowed;
  }

  /** The deletion has committed: the map is ahead by the slot given back, if any. */
  lemma JustWithdrawn(s: Server, e: Move, u: ID)
    requires SoleAdmin.OwnAccounts(s.books.db) && InvitesKnown(s) && RightSoFar(s, u) && Withdraws(s, e, u)
    ensures var s1, id := Next(s, e), s.tasks[e.t].ask.id;
            && Withdrawn(s1, e.t, u, id) && Known(s1, u) && s1.mem == s.mem && s1.issuedInvites == s.issuedInvites
            && s1.tasks == s.tasks[e.t := Unlisting(u, id)]
            && Drift(s1, u) == if s.books.db.invites[id].isUsed then 0 else 1
  {
    WithdrawalEffect(s, e, u);
    WithdrawalRefunds(s, e, u);
    hide Next, Allowed, InvitesKnown, SoleAdmin.OwnAccounts, Withdrawn, Refund, Take, Drift;
    WithdrawnAtFirst(s, e, u);
    DriftNext(s, e, u);
  }

  lemma RightAtFirst(s: Server, e: Move, u: ID)
    requires SoleAdmin.OwnAccounts(s.books.db) && InvitesKnown(s) && IssuedOnce(s.issuedInvites, s.books.inviteIds)
    requires RightSoFar(s, u) && Withdraws(s, e, u) && ListMatchesRow(s, s.tasks[e.t].ask.id)
    ensures var id := s.tasks[e.t].ask.id; Right(Next(s, e), e.t, u, id, s.books.db.invites[id].token)
  {
    hide Next, InvitesKnown, IssuedOnce, SoleAdmin.OwnAccounts, Withdrawn, Drift, HasInvite, Absent, RightSoFar;
    JustWithdrawn(s, e, u);
    if s.books.db.invites[s.tasks[e.t].ask.id].isUsed {
      AbsentAfter(s, e, u);
    } else {
      HeldAtFirst(s, e.t, u, s.tasks[e.t].ask.id);
    }
  }

  /** The moves lead from one state to the other and do not touch the user nor delete an invite of theirs. */
  ghost predicate LeadsQuietly(s0: Server, es: seq<Move>, s: Server, u: ID) {
    AllAllowed(s0, es) && Profiles.Undisturbed(s0, es, u) && NoneWithdrawn(s0, es, u) && After(s0, es) == s
  }

  lemma QuietlyOn(s0: Server, es: seq<Move>, s: Server, e: Move, u: ID)
    requires LeadsQuietly(s0, es, s, u) && Allowed(s, e) && !Profiles.Upsets(s, e, u) && !Withdraws(s, e, u)
    ensures LeadsQuietly(s0, es + [e], Next(s, e), u)
  {
    hide Next, Allowed, Withdraws, Profiles.Upsets;
    OneMoreMove(s0, es, e);
    assert (es + [e])[..|es|] == es;
  }

  lemma NotYet(s: Server, u: ID)
    ensures LeadsQuietly(s, [], s, u)
  {
  }

  /** Let the deletion take its invite off the list at a moment when that leaves the count wrong. */
  lemma WrongTake(s1: Server, es: seq<Move>, s: Server, t: ID, x: Env, u: ID, id: ID)
    requires SoleAdmin.OwnAccounts(s.books.db) && LeadsQuietly(s1, es, s, u) && Known(s, u) && Withdrawn(s, t, u, id)
    requires Drift(s, u) != if HasInvite(s.mem, id) then 1 else 0
    ensures !CountStaysRight(s1, u)
  {
    TakesIt(s, t, x, u, id);
    assert !Withdraws(s, Act(t, x), u);
    hide SoleAdmin.OwnAccounts, Next, Allowed, Drift, Withdrawn, Refund, Take, HasInvite, Withdraws, Profiles.Upsets;
    DriftNext(s, Act(t, x), u);
    QuietlyOn(s1, es, s, Act(t, x), u);
    hide AllAllowed, After, Profiles.Undisturbed, NoneWithdrawn;
    var es' := es + [Act(t, x)];
    assert AllAllowed(s1, es') && Profiles.Undisturbed(s1, es', u) && NoneWithdrawn(s1, es', u);
    assert NoneUnlists(After(s1, es').tasks, u);
  }

  lemma ListingStep(s: Server, o: ID, x: Env, u: ID, id: ID)
    requires o in s.tasks && Lists(s.tasks[o], id)
    ensures var e := Act(o, x);
            && Allowed(s, e) && HasInvite(Next(s, e).mem, id) && Next(s, e).books == s.books
            && Refund(s, e, u) == 0 && Take(s, e, u) == 0 && !Profiles.Upsets(s, e, u) && !Withdraws(s, e, u)
  {
    hide Creating, Entering;
    assert Next(s, Act(o, x)).mem.inviteTokens[s.tasks[o].inv.token] == id;
  }

  /** Let the invite come onto the list first. */
  lemma LateListing(s1: Server, t: ID, o: ID, x: Env, u: ID, id: ID)
    requires SoleAdmin.OwnAccounts(s1.books.db) && InvitesKnown(s1) && Known(s1, u) && Withdrawn(s1, t, u, id)
    requires Drift(s1, u) == 0 && o in s1.tasks && Lists(s1.tasks[o], id)
    ensures !CountStaysRight(s1, u)
  {
    assert o != t;
    hide SoleAdmin.OwnAccounts, Next, Allowed, Drift, Withdrawn, Refund, Take, HasInvite, Withdraws, Profiles.Upsets,
      LeadsQuietly, CountStaysRight, InvitesKnown;
    NotYet(s1, u);
    ListingStep(s1, o, x, u, id);
    DriftNext(s1, Act(o, x), u);
    StaysWithdrawn(s1, t, o, x, u, id);
    QuietlyOn(s1, [], s1, Act(o, x), u);
    WrongTake(s1, [] + [Act(o, x)], Next(s1, Act(o, x)), t, x, u, id);
  }

  lemma StaysSound(prior: seq<Move>, e: Move)
    requires AllAllowed(COLD, prior) && Allowed(After(COLD, prior), e)
    ensures var s, s1 := After(COLD, prior), Next(After(COLD, prior), e);
            && AllAllowed(COLD, prior + [e]) && After(COLD, prior + [e]) == s1
            && SoleAdmin.OwnAccounts(s.books.db) && InvitesKnown(s) && IssuedOnce(s.issuedInvites, s.books.inviteIds)
            && SoleAdmin.OwnAccounts(s1.books.db) && InvitesKnown(s1)
  {
    hide Next, Allowed, Profiles.Sane, Present, InvitesKnown, AllListed, SoleAdmin.OwnAccounts, IssuedOnce;
    OneMoreMove(COLD, prior, e);
    AlwaysCarried(prior);
    AlwaysCarried(prior + [e]);
    AlwaysIssuedOnce(prior);
    Profiles.AlwaysSane(prior);
    Profiles.SaneFacts(After(COLD, prior));
    Profiles.AlwaysSane(prior + [e]);
    Profiles.SaneFacts(After(COLD, prior + [e]));
  }

  lemma WrongAtFirst(s: Server, e: Move, u: ID)
    requires SoleAdmin.OwnAccounts(s.books.db) && SoleAdmin.OwnAccounts(Next(s, e).books.db)
    requires InvitesKnown(s) && InvitesKnown(Next(s, e))
    requires RightSoFar(s, u) && Withdraws(s, e, u) && !ListMatchesRow(s, s.tasks[e.t].ask.id)
    ensures !CountStaysRight(Next(s, e), u)
  {
    hide Next, Allowed, InvitesKnown, SoleAdmin.OwnAccounts, Withdrawn, Drift, HasInvite, CountStaysRight, LeadsQuietly,
      RightSoFar;
    var id, s1 := s.tasks[e.t].ask.id, Next(s, e);
    JustWithdrawn(s, e, u);
    NotYet(s1, u);
    if HasInvite(s.mem, id) == s.books.db.invites[id].isUsed {
      WrongTake(s1, [], s1, e.t, e.x, u, id);
    } else {
      var o :| o in s.tasks && Lists(s.tasks[o], id);
      LateListing(s1, e.t, o, e.x, u, id);
    }
  }

  /** At the commit of the deletion of an invite, in any reachable state where the counts of its owner agree and no
      other invite of theirs is on its way off the list: the list has what the row says, if and only if, however the
      run goes on without deleting another, the count in the map comes out as that of the table. */
  lemma {:induction false} ListMatchesRowIffCountStaysRight(prior: seq<Move>, e: Move, u: ID)
    requires AllAllowed(COLD, prior)
    requires var s := After(COLD, prior); RightSoFar(s, u) && Withdraws(s, e, u)
    ensures var s := After(COLD, prior);
            ListMatchesRow(s, s.tasks[e.t].ask.id) <==> CountStaysRight(Next(s, e), u)
  {
    var s := After(COLD, prior);
    var s1, id := Next(s, e), s.tasks[e.t].ask.id;
    var token := s.books.db.invites[id].token;
    WithdrawalEffect(s, e, u);
    hide After, AllAllowed, Next, Allowed, ListMatchesRow, InvitesKnown, IssuedOnce, SoleAdmin.OwnAccounts, Withdraws,
      Right, Profiles.Undisturbed, NoneWithdrawn, RightSoFar, Owns;
    StaysSound(prior, e);
    if ListMatchesRow(s, id) {
      RightAtFirst(s, e, u);
      forall es: seq<Move> | AllAllowed(s1, es) && Profiles.Undisturbed(s1, es, u) && NoneWithdrawn(s1, es, u)
          && NoneUnlists(After(s1, es).tasks, u)
        ensures Known(After(s1, es), u) && Drift(After(s1, es), u) == 0
      {
        StaysRight(prior + [e], es, e.t, u, id, token);
        RightAtLast(After(s1, es), e.t, u, id, token);
      }
    } else {
      WrongAtFirst(s, e, u);
    }
  }

  lemma RightAtLast(s: Server, t: ID, u: ID, id: ID, token: string)
    requires Right(s, t, u, id, token) && NoneUnlists(s.tasks, u)
    ensures Known(s, u) && Drift(s, u) == 0
  {
    hide Drift;
    assert Withdrawn(s, t, u, id) ==> Unlists(s.tasks[t], u);
  }
}
