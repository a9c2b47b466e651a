/** Nobody but the admin can invite, under any interleaving: whoever came by an invite has a limit of zero, in the
    table,
    in the map, and in every request on its way. */
module Guests {
  import opened Base
  import opened Models
  import opened Device
  import opened Memory
  import opened Tables
  import opened Registry
  import opened Concurrent
  import SoleAdmin
  import Requests
  import Ledger

  predicate NoGuestInvites(u: User) {
    u.userType != Admin ==> u.invitesLimit == 0
  }

  predicate CarriesGuest(task: Task) {
    match task
    case Consuming(st, _) => NoGuestInvites(st.user)
    case AddingToken(st, _) => NoGuestInvites(st.user)
    case AddingUser(st, _) => NoGuestInvites(st.user)
    case BootAllowed(o) => o.invite.None? && o.userType == Admin
    case JoinStart(o) => o.invite.Some?
    case JoinFound(o, _) => o.invite.Some?
    case BootWaiting(o) => o.invite.None?
    case BootHolding(o) => o.invite.None?
    case _ => true
  }

  ghost predicate RowsOk(rows: map<ID, User>) {
    forall u | u in rows :: NoGuestInvites(rows[u])
  }

  ghost predicate CachedOk(users: map<ID, UserState>) {
    forall u | u in users :: NoGuestInvites(users[u].user)
  }

  ghost predicate GuestsOk(s: Server) {
    && RowsOk(s.books.db.users) && CachedOk(s.mem.users)
    && forall t | t in s.tasks :: CarriesGuest(s.tasks[t])
  }

  /** Settings are not rights. */
  lemma SettingsKeepRights(u: User, req: UpdateSettings)
    ensures SettingsInTable(u, req).userType == u.userType && SettingsInTable(u, req).invitesLimit == u.invitesLimit
    ensures SettingsInMemory(u, req).userType == u.userType && SettingsInMemory(u, req).invitesLimit == u.invitesLimit
  {
  }

  lemma StepKeepsRights(d: UserState, e: Device.Event)
    ensures Step(d, e).user.userType == d.user.userType && Step(d, e).user.invitesLimit == d.user.invitesLimit
  {
    if e.Settings? { SettingsKeepRights(d.user, e.req); }
  }

  /** What a step that creates a user carries on. */
  lemma CreatingCarriesGuest(db: Db, m: Mem, task: Task, x: Env)
    requires CreatesUser(task) && CarriesGuest(task) && CachedOk(m.users)
    ensures var f := Perform(db, m, task, x);
            && CachedOk(f.mem.users) && (f.next.Some? ==> CarriesGuest(f.next.value))
            && (f.tx.Some? && f.tx.value.AddState? ==> NoGuestInvites(f.tx.value.st.user))
  {
    hide Entering, Following, CreateState, Prepared;
    if task.BootAllowed? || task.JoinFound? { Requests.PreparedIsNewcomer(task.o, x.drawn); }
  }

  lemma EnteringCarriesGuest(db: Db, m: Mem, task: Task, x: Env)
    requires EntersGuards(task) && CachedOk(m.users)
    ensures var f := Perform(db, m, task, x);
            && CachedOk(f.mem.users) && (f.next.Some? ==> CarriesGuest(f.next.value))
            && (f.tx.Some? ==> !f.tx.value.AddState?)
  {
    hide Creating, Following, Step, Refused, DeleteInvite, UpdateSettingsRow, UnusedOf;
    if task.Serving? && task.uid in m.users {
      StepKeepsRights(m.users[task.uid], Device.Event.Ping(x.now, x.at));
      StepKeepsRights(m.users[task.uid], Device.Event.Pause(x.at));
      StepKeepsRights(m.users[task.uid], Device.Event.Unpause(x.at));
    }
  }

  lemma LaterCarriesGuest(db: Db, m: Mem, task: Task, x: Env)
    requires !CreatesUser(task) && !EntersGuards(task) && CachedOk(m.users)
    ensures var f := Perform(db, m, task, x);
            && CachedOk(f.mem.users) && (f.next.Some? ==> CarriesGuest(f.next.value))
            && (f.tx.Some? ==> !f.tx.value.AddState?)
  {
    hide Creating, Entering, DeleteUser, CreateInvite, HasInvite, Step;
    if task.Adopting? && task.uid in m.users {
      StepKeepsRights(m.users[task.uid], Device.Event.Settings(task.req, x.at));
    }
  }

  lemma RowsStayOk(b: Ledger.Books, tx: Ledger.Tx)
    requires RowsOk(b.db.users) && (tx.AddState? ==> NoGuestInvites(tx.st.user))
    ensures RowsOk(Ledger.Commit(b, tx).db.users)
  {
    hide SettingsInTable, Insertable;
    if tx.NewSettings? && tx.uid in b.db.users { SettingsKeepRights(b.db.users[tx.uid], tx.req); }
  }

  lemma GuestsAct(s: Server, t: ID, x: Env)
    requires GuestsOk(s) && Allowed(s, Act(t, x))
    ensures GuestsOk(Next(s, Act(t, x)))
  {
    hide Perform, Ledger.Commit, CarriesGuest, RowsOk, CachedOk, FreshDraw;
    var task := s.tasks[t];
    assert CarriesGuest(task);
    if CreatesUser(task) {
      CreatingCarriesGuest(s.books.db, s.mem, task, x);
    } else if EntersGuards(task) {
      EnteringCarriesGuest(s.books.db, s.mem, task, x);
    } else {
      LaterCarriesGuest(s.books.db, s.mem, task, x);
    }
    var tx := Perform(s.books.db, s.mem, task, x).tx;
    if tx.Some? { RowsStayOk(s.books, tx.value); }
  }

  lemma GuestsNext(s: Server, e: Move)
    requires GuestsOk(s) && Allowed(s, e)
    ensures GuestsOk(Next(s, e))
  {
    hide Perform, ToPersist, Step;
    match e
    case Act(t, x) => GuestsAct(s, t, x);
    case ScanAll(_, now, clock, _) =>
      forall u | u in s.mem.users ensures NoGuestInvites(Step(s.mem.users[u], Scan(now, clock(u))).user) {
        StepKeepsRights(s.mem.users[u], Scan(now, clock(u)));
      }
    case Crash(loaded) =>
      forall u | u in loaded.users ensures NoGuestInvites(loaded.users[u].user) {
        assert IsLoaded(s.books.db, loaded.users[u]);
      }
    case Arrive(_, _) =>
  }

  lemma {:induction false} AlwaysGuests(es: seq<Move>)
    requires AllAllowed(COLD, es)
    ensures GuestsOk(After(COLD, es))
  {
    hide Next, Allowed;
    if es != [] {
      AlwaysGuests(es[..|es| - 1]);
      GuestsNext(After(COLD, es[..|es| - 1]), es[|es| - 1]);
    }
  }

  /** Under any interleaving, whoever is not the one admin has an invite limit of zero in table and map, and every
      unused
      invite is the admin's. */
  lemma {:induction false} OnlyTheAdminInvites(es: seq<Move>)
    requires AllAllowed(COLD, es)
    ensures var s := After(COLD, es);
            && (forall u | u in s.books.db.users && u !in s.admins ::
                  s.books.db.users[u].invitesLimit == 0 && s.books.db.users[u].invitesUsed == 0)
            && (forall u | u in s.mem.users && u !in s.admins :: s.mem.users[u].user.invitesLimit == 0)
            && (forall i | Unused(s.books.db, i) :: s.books.db.invites[i].ownerId in s.admins)
  {
    AlwaysGuests(es);
    SoleAdmin.SoleAdmin(es);
    SoleAdmin.BooksBalanceConcurrently(es);
    GuestsHaveNoInvites(After(COLD, es));
  }

  lemma GuestsHaveNoInvites(s: Server)
    requires GuestsOk(s) && Ledger.Balanced(s.books)
    requires forall u | u in s.books.db.users :: s.books.db.users[u].userType == Admin <==> u in s.admins
    ensures forall u | u in s.books.db.users && u !in s.admins :: s.books.db.users[u].invitesUsed == 0
    ensures forall i | Unused(s.books.db, i) :: s.books.db.invites[i].ownerId in s.admins
  {
    forall i | Unused(s.books.db, i) ensures s.books.db.invites[i].ownerId in s.admins {
      var owner := s.books.db.invites[i].ownerId;
      assert i in UnusedOf(s.books.db, owner);
      assert Ledger.Conserved(s.books, owner);
    }
  }
}
