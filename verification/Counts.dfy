/** The number of invites a user has used, which the table keeps and the map keeps again, under any interleaving.

    The two are written in different steps, so between them stands what requests in flight have yet to count. */
module Counts {
  import opened Base
  import opened Models
  import opened Device
  import opened Memory
  import opened Tables
  import opened Registry
  import opened Concurrent
  import Profiles
  import SoleAdmin
  import Ledger

  predicate Known(s: Server, u: ID) {
    u in s.books.db.users && u in s.mem.users
  }

  /** What a request has yet to add to the count in the map. */
  function Weight(task: Task, u: ID): int {
    match task
    case Listing(inv) => if inv.ownerId == u then 1 else 0
    case Counting(uid, delta) => if uid == u then delta else 0
    case _ => 0
  }

  ghost function Uncounted(tasks: map<ID, Task>, u: ID): int
    decreases |tasks.Keys|
  {
    if tasks == map[] then 0
    else
      var t :| t in tasks;
      assert (tasks - {t}).Keys == tasks.Keys - {t};
      Weight(tasks[t], u) + Uncounted(tasks - {t}, u)
  }

  lemma {:induction false} OneByOne(tasks: map<ID, Task>, t: ID, u: ID)
    requires t in tasks
    ensures Uncounted(tasks, u) == Weight(tasks[t], u) + Uncounted(tasks - {t}, u)
    decreases |tasks.Keys|
  {
    var o :| o in tasks && Uncounted(tasks, u) == Weight(tasks[o], u) + Uncounted(tasks - {o}, u);
    if o != t {
      assert (tasks - {o}).Keys == tasks.Keys - {o} && (tasks - {t}).Keys == tasks.Keys - {t};
      OneByOne(tasks - {o}, t, u);
      OneByOne(tasks - {t}, o, u);
      assert (tasks - {o}) - {t} == (tasks - {t}) - {o};
    }
  }

  lemma OneReplaced(tasks: map<ID, Task>, t: ID, task: Task, u: ID)
    ensures Uncounted(tasks[t := task], u) ==
            Uncounted(tasks, u) + Weight(task, u) - if t in tasks then Weight(tasks[t], u) else 0
  {
    OneByOne(tasks[t := task], t, u);
    assert tasks[t := task] - {t} == tasks - {t};
    if t in tasks {
      OneByOne(tasks, t, u);
    } else {
      assert tasks - {t} == tasks;
    }
  }

  lemma {:induction false} NothingUncounted(tasks: map<ID, Task>, u: ID)
    requires forall t | t in tasks :: Weight(tasks[t], u) == 0
    ensures Uncounted(tasks, u) == 0
    decreases |tasks.Keys|
  {
    if tasks != map[] {
      var t :| t in tasks;
      OneByOne(tasks, t, u);
      assert (tasks - {t}).Keys == tasks.Keys - {t};
      NothingUncounted(tasks - {t}, u);
    }
  }

  /** By how much the map, with what is on its way to it, is ahead of the table. */
  ghost function Drift(s: Server, u: ID): int
    requires Known(s, u)
  {
    s.mem.users[u].user.invitesUsed + Uncounted(s.tasks, u) - s.books.db.users[u].invitesUsed
  }

  /** A transaction gives the user a slot back. */
  function GivesBack(db: Db, tx: Ledger.Tx, u: ID): int {
    if tx.RemoveInvite? && tx.owner == u && Owns(db, u, tx.id) && !db.invites[tx.id].isUsed then 1 else 0
  }

  /** A step takes an invite of the user off the list, for which the map will give a slot back. */
  function Takes(m: Mem, task: Task, u: ID): int {
    if task.Unlisting? && task.uid == u && HasInvite(m, task.id) then 1 else 0
  }

  // ----- One step -----

  function Adds(tx: Ledger.Tx, u: ID): int {
    if tx.AddInvite? && tx.inv.ownerId == u then 1 else 0
  }

  lemma SettingsKeepCount(u: User, req: UpdateSettings)
    ensures SettingsInTable(u, req).invitesUsed == u.invitesUsed
    ensures SettingsInMemory(u, req).invitesUsed == u.invitesUsed
  {
  }

  lemma StepKeepsCount(d: UserState, e: Device.Event)
    requires !e.Edit?
    ensures Step(d, e).user.invitesUsed == d.user.invitesUsed
  {
    if e.Settings? { SettingsKeepCount(d.user, e.req); }
  }

  lemma TableCounts(b: Ledger.Books, tx: Ledger.Tx, u: ID)
    requires u in b.db.users && SoleAdmin.OwnAccounts(b.db) && tx != Ledger.RemoveUser(u)
    requires tx.AddInvite? ==> CreateInvite(b.db, tx.inv).Ok?
    ensures var db := Ledger.Commit(b, tx).db;
            && u in db.users
            && db.users[u].invitesUsed == b.db.users[u].invitesUsed + Adds(tx, u) - GivesBack(b.db, tx, u)
  {
    match tx
    case RemoveUser(uid) => if uid in b.db.users { SoleAdmin.OnlyTheTargetGoes(b.db, uid); }
    case NewSettings(uid, req) =>
      hide SoleAdmin.OwnAccounts, SettingsInTable;
      SettingsKeepCount(b.db.users[u], req);
    case _ => hide SoleAdmin.OwnAccounts;
  }

  /** What the map counts now and what is left to count make up for what the table counts, except on deletions. */
  lemma MapCounts(db: Db, m: Mem, task: Task, x: Env, u: ID)
    requires u in m.users && !(task.AddingUser? && task.st.user.id == u) && !(task.DroppingUser? && task.target == u)
    ensures var f := Perform(db, m, task, x);
            && u in f.mem.users
            && f.mem.users[u].user.invitesUsed + (if f.next.Some? then Weight(f.next.value, u) else 0)
            == m.users[u].user.invitesUsed + Weight(task, u)
               + (if f.tx.Some? then Adds(f.tx.value, u) else 0) - Takes(m, task, u)
            && (f.tx.Some? && f.tx.value.AddInvite? ==> CreateInvite(db, f.tx.value.inv).Ok?)
            && (f.tx == Some(Ledger.RemoveUser(u)) ==> task.DeletingUser? && task.target == u)
  {
    if CreatesUser(task) {
      hide Entering, Following, CreateState, Prepared, CreateInvite;
    } else if EntersGuards(task) {
      EnteringCounts(db, m, task, x, u);
    } else {
      FollowingCounts(db, m, task, x, u);
    }
  }

  lemma EnteringCounts(db: Db, m: Mem, task: Task, x: Env, u: ID)
    requires u in m.users && EntersGuards(task)
    ensures var f := Perform(db, m, task, x);
            && u in f.mem.users && f.mem.users[u].user.invitesUsed == m.users[u].user.invitesUsed
            && (f.next.Some? ==> Weight(f.next.value, u) == 0)
            && (f.tx.Some? ==> !f.tx.value.AddInvite? && !f.tx.value.RemoveUser?)
  {
    hide Creating, Following, Step, Refused, DeleteInvite, UpdateSettingsRow, UnusedOf, Rejection, LanguageAccepted;
    StepKeepsCount(m.users[u], Device.Event.Ping(x.now, x.at));
    StepKeepsCount(m.users[u], Device.Event.Pause(x.at));
    StepKeepsCount(m.users[u], Device.Event.Unpause(x.at));
  }

  lemma FollowingCounts(db: Db, m: Mem, task: Task, x: Env, u: ID)
    requires u in m.users && !(task.DroppingUser? && task.target == u) && !CreatesUser(task) && !EntersGuards(task)
    ensures var f := Perform(db, m, task, x);
            && u in f.mem.users
            && f.mem.users[u].user.invitesUsed + (if f.next.Some? then Weight(f.next.value, u) else 0)
            == m.users[u].user.invitesUsed + Weight(task, u)
               + (if f.tx.Some? then Adds(f.tx.value, u) else 0) - Takes(m, task, u)
            && (f.tx.Some? && f.tx.value.AddInvite? ==> CreateInvite(db, f.tx.value.inv).Ok?)
            && (f.tx == Some(Ledger.RemoveUser(u)) ==> task.DeletingUser? && task.target == u)
  {
    hide Creating, Entering, DeleteUser, CreateInvite, HasInvite, DropInvites, Step;
    ListAfterUnlisting(m, task);
    if task.Adopting? { StepKeepsCount(m.users[u], Device.Event.Settings(task.req, x.at)); }
  }

  lemma ListAfterUnlisting(m: Mem, task: Task)
    ensures task.Unlisting? ==> DropInvites(m, {task.id}).users == m.users
    ensures task.DroppingInvites? ==> DropInvites(m, task.ids).users == m.users
  {
  }

  /** A deletion that commits gives a slot back when the invite is unused. */
  function Refund(s: Server, e: Move, u: ID): int {
    if e.Act? && e.t in s.tasks
    then
      var tx := Perform(s.books.db, s.mem, s.tasks[e.t], e.x).tx;
      if tx.Some? then GivesBack(s.books.db, tx.value, u) else 0
    else 0
  }

  function Take(s: Server, e: Move, u: ID): int {
    if e.Act? && e.t in s.tasks then Takes(s.mem, s.tasks[e.t], u) else 0
  }

  lemma DriftAct(s: Server, t: ID, x: Env, u: ID)
    requires SoleAdmin.OwnAccounts(s.books.db) && Known(s, u)
    requires Allowed(s, Act(t, x)) && !Profiles.Upsets(s, Act(t, x), u)
    ensures var e := Act(t, x);
            && Known(Next(s, e), u) && Drift(Next(s, e), u) == Drift(s, u) + Refund(s, e, u) - Take(s, e, u)
  {
    MapCounts(s.books.db, s.mem, s.tasks[t], x, u);
    hide Perform, SoleAdmin.OwnAccounts, Ledger.Commit, Uncounted, GivesBack, Takes, Adds, Weight, FreshDraw;
    var f := Perform(s.books.db, s.mem, s.tasks[t], x);
    if f.tx.Some? { TableCounts(s.books, f.tx.value, u); }
    if f.next.Some? {
      OneReplaced(s.tasks, t, f.next.value, u);
    } else {
      OneByOne(s.tasks, t, u);
    }
  }

  lemma DriftNext(s: Server, e: Move, u: ID)
    requires SoleAdmin.OwnAccounts(s.books.db) && Known(s, u) && Allowed(s, e) && !Profiles.Upsets(s, e, u)
    ensures Known(Next(s, e), u) && Drift(Next(s, e), u) == Drift(s, u) + Refund(s, e, u) - Take(s, e, u)
  {
    match e
    case Act(t, x) => DriftAct(s, t, x, u);
    case Arrive(t, task) =>
      hide Uncounted, SoleAdmin.OwnAccounts;
      OneReplaced(s.tasks, t, task, u);
    case ScanAll(t, now, clock, rows) =>
      hide Uncounted, SoleAdmin.OwnAccounts, ToPersist, Step;
      OneReplaced(s.tasks, t, Writing(rows), u);
      StepKeepsCount(s.mem.users[u], Scan(now, clock(u)));
  }

  // ----- Runs -----

  /** The slots the table gave back in a run, and those the map set out to give back. */
  function Refunds(s: Server, es: seq<Move>, u: ID): int {
    if es == [] then 0
    else
      var before, e := es[..|es| - 1], es[|es| - 1];
      Refunds(s, before, u) + Refund(After(s, before), e, u)
  }

  function TakenOff(s: Server, es: seq<Move>, u: ID): int {
    if es == [] then 0
    else
      var before, e := es[..|es| - 1], es[|es| - 1];
      TakenOff(s, before, u) + Take(After(s, before), e, u)
  }

  lemma {:induction false} DriftOfRun(s: Server, es: seq<Move>, u: ID)
    requires Profiles.Sane(s) && Known(s, u) && AllAllowed(s, es) && Profiles.Undisturbed(s, es, u)
    ensures var s' := After(s, es);
            && Profiles.Sane(s') && Known(s', u)
            && Drift(s', u) == Drift(s, u) + Refunds(s, es, u) - TakenOff(s, es, u)
  {
    hide Profiles.Sane, Next, Allowed, Profiles.Upsets, Refund, Take, Drift, SoleAdmin.OwnAccounts;
    if es != [] {
      var before, e := es[..|es| - 1], es[|es| - 1];
      DriftOfRun(s, before, u);
      Profiles.SaneFacts(After(s, before));
      DriftNext(After(s, before), e, u);
      Profiles.SaneNext(After(s, before), e);
    }
  }

  /** Nothing on its way to the user's count. */
  ghost predicate Settled(tasks: map<ID, Task>, u: ID) {
    forall t | t in tasks :: Weight(tasks[t], u) == 0
  }

  predicate InAgreement(s: Server, u: ID) {
    Known(s, u) && s.mem.users[u].user.invitesUsed == s.books.db.users[u].invitesUsed
  }

  /** From agreement to any later moment with nothing on its way: the map is ahead of the table by the unused invites
      deleted less the invites taken off the list, among whatever other requests. */
  lemma {:induction false} CountsDriftByDeletions(prior: seq<Move>, es: seq<Move>, u: ID)
    requires AllAllowed(COLD, prior)
    requires var s := After(COLD, prior);
             && InAgreement(s, u) && Settled(s.tasks, u) && AllAllowed(s, es) && Profiles.Undisturbed(s, es, u)
             && Settled(After(s, es).tasks, u)
    ensures var s := After(COLD, prior);
            var s' := After(s, es);
            && Known(s', u)
            && s'.mem.users[u].user.invitesUsed - s'.books.db.users[u].invitesUsed
            == Refunds(s, es, u) - TakenOff(s, es, u)
  {
    hide Next, Allowed, AllAllowed, After, Profiles.Sane, Refunds, TakenOff;
    var s := After(COLD, prior);
    Profiles.AlwaysSane(prior);
    DriftOfRun(s, es, u);
    NothingUncounted(s.tasks, u);
    NothingUncounted(After(s, es).tasks, u);
  }
}
