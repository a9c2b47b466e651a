/** Runs from the cold server that leave something in the maps that the tables do not hold: an invite deleted before it
    was listed, and a user deleted before they were entered. */
module GhostRuns {
  import opened Base
  import opened Uptime
  import opened Models
  import opened Memory
  import opened Tables
  import opened Registry
  import opened Concurrent
  import opened Witnesses
  import Ledger

  /** An admin's request passes both guards. */
  lemma AdminArrives(es: seq<Move>, s: Server, t: ID, ask: Ask, s': Server)
    requires Leads(COLD, es, s) && t !in s.tasks && s.lock == None && AdminOnly(ask) && Live(s.mem.users) <= s.seen
    requires "a" in s.mem.tokens && s.mem.tokens["a"] == 0 && 0 in s.mem.users && s.mem.users[0].user.userType == Admin
    requires s' == s.(tasks := s.tasks[t := Serving(0, ask)])
    ensures Leads(COLD, es + [Arrive(t, Resolving("a", ask)), Act(t, X), Act(t, X)], s')
  {
    var s1 := s.(tasks := s.tasks[t := Resolving("a", ask)]);
    var s2 := s.(tasks := s.tasks[t := CheckingAdmin(0, ask)]);
    AdminResolved(s, t, ask, s1, s2);
    AdminChecked(s, t, ask, s2, s');
    hide Next, Allowed, Leads;
    LeadsOn(COLD, es, s, Arrive(t, Resolving("a", ask)), s1);
    LeadsOn(COLD, es + [Arrive(t, Resolving("a", ask))], s1, Act(t, X), s2);
    LeadsOn(COLD, es + [Arrive(t, Resolving("a", ask))] + [Act(t, X)], s2, Act(t, X), s');
    assert es + [Arrive(t, Resolving("a", ask))] + [Act(t, X)] + [Act(t, X)]
        == es + [Arrive(t, Resolving("a", ask)), Act(t, X), Act(t, X)];
  }

  lemma AdminResolved(s: Server, t: ID, ask: Ask, s1: Server, s2: Server)
    requires t !in s.tasks && s.lock == None && AdminOnly(ask) && Live(s.mem.users) <= s.seen
    requires "a" in s.mem.tokens && s.mem.tokens["a"] == 0
    requires s1 == s.(tasks := s.tasks[t := Resolving("a", ask)])
    requires s2 == s.(tasks := s.tasks[t := CheckingAdmin(0, ask)])
    ensures Allowed(s, Arrive(t, Resolving("a", ask))) && Next(s, Arrive(t, Resolving("a", ask))) == s1
    ensures Allowed(s1, Act(t, X)) && Next(s1, Act(t, X)) == s2
  {
    hide Creating, Following, First;
    PlainStep(s1, t, X, CheckingAdmin(0, ask), s1.mem);
    assert s1.tasks[t := CheckingAdmin(0, ask)] == s2.tasks;
  }

  lemma AdminChecked(s: Server, t: ID, ask: Ask, s2: Server, s': Server)
    requires t !in s.tasks && s.lock == None && Live(s.mem.users) <= s.seen
    requires 0 in s.mem.users && s.mem.users[0].user.userType == Admin
    requires s2 == s.(tasks := s.tasks[t := CheckingAdmin(0, ask)]) && s' == s.(tasks := s.tasks[t := Serving(0, ask)])
    ensures Allowed(s2, Act(t, X)) && Next(s2, Act(t, X)) == s'
  {
    hide Creating, Following, First;
    PlainStep(s2, t, X, Serving(0, ask), s2.mem);
    assert s2.tasks[t := Serving(0, ask)] == s'.tasks;
  }

  /** A step without a transaction that goes on. */
  lemma PlainStep(s: Server, t: ID, x: Env, next: Task, m: Mem)
    requires t in s.tasks && !s.tasks[t].BootWaiting? && s.lock == None && !HoldsLock(next)
    requires Perform(s.books.db, s.mem, s.tasks[t], x) == Effect(m, None, Some(next)) && Live(m.users) <= s.seen
    ensures Allowed(s, Act(t, x)) && Next(s, Act(t, x)) == s.(mem := m, tasks := s.tasks[t := next])
  {
    hide Perform, Live;
    assert s.seen + Live(m.users) + {} == s.seen && s.admins + {} == s.admins;
    assert s.issued + map[] == s.issued && s.issuedInvites + map[] == s.issuedInvites
      && s.accounts + map[] == s.accounts;
  }

  /** A step without a transaction that ends the request. */
  lemma LastStep(s: Server, t: ID, x: Env, m: Mem)
    requires t in s.tasks && !s.tasks[t].BootWaiting? && s.lock == None
    requires Perform(s.books.db, s.mem, s.tasks[t], x) == Effect(m, None, None) && Live(m.users) <= s.seen
    ensures Allowed(s, Act(t, x)) && Next(s, Act(t, x)) == s.(mem := m, tasks := s.tasks - {t})
  {
    hide Perform, Live;
    assert s.seen + Live(m.users) + {} == s.seen && s.admins + {} == s.admins;
    assert s.issued + map[] == s.issued && s.issuedInvites + map[] == s.issuedInvites
      && s.accounts + map[] == s.accounts;
  }

  /** A step that commits. */
  lemma TxStep(s: Server, t: ID, x: Env, tx: Ledger.Tx, next: Task, books: Ledger.Books)
    requires t in s.tasks && !s.tasks[t].BootWaiting? && s.lock == None && !HoldsLock(next)
    requires Perform(s.books.db, s.mem, s.tasks[t], x) == Effect(s.mem, Some(tx), Some(next))
    requires Ledger.Commit(s.books, tx) == books && FreshDraw(s, tx) && NewAdmins(tx) == {}
             && Live(s.mem.users) <= s.seen
    ensures Allowed(s, Act(t, x))
    ensures Next(s, Act(t, x)) ==
            s.(books := books, tasks := s.tasks[t := next], seen := s.seen + NewRows(tx),
               issued := s.issued + NewTokens(tx), issuedInvites := s.issuedInvites + NewInviteTokens(tx),
               accounts := s.accounts + NewAccounts(tx))
  {
    hide Perform, Live, FreshDraw, Ledger.Commit, NewAdmins, NewRows, NewTokens, NewInviteTokens, NewAccounts;
    assert s.seen + Live(s.mem.users) + NewRows(tx) == s.seen + NewRows(tx) && s.admins + {} == s.admins;
  }

  /** A step that commits without drawing anything. */
  lemma QuietStep(s: Server, t: ID, x: Env, tx: Ledger.Tx, next: Task, books: Ledger.Books)
    requires t in s.tasks && !s.tasks[t].BootWaiting? && s.lock == None && !HoldsLock(next)
    requires Perform(s.books.db, s.mem, s.tasks[t], x) == Effect(s.mem, Some(tx), Some(next))
    requires Ledger.Commit(s.books, tx) == books && (tx.RemoveInvite? || tx.RemoveUser?) && Live(s.mem.users) <= s.seen
    ensures Allowed(s, Act(t, x)) && Next(s, Act(t, x)) == s.(books := books, tasks := s.tasks[t := next])
  {
    hide Perform, Live, Ledger.Commit, Next, Allowed;
    TxStep(s, t, x, tx, next, books);
    assert s.issued + map[] == s.issued && s.issuedInvites + map[] == s.issuedInvites
      && s.accounts + map[] == s.accounts;
    assert s.seen + {} == s.seen;
  }

  // ----- A ghost invite -----

  const Y := EnvAt("i", 0)

  const INVITE := Invite(0, 0, "i", false, 0, None)

  const SPENT := FIRST.user.(invitesUsed := 1)

  /** The invite is stored and not yet listed. */
  const OFFERED := BOOTED.(
    books := BOOKS.(db := BOOKS.db.(users := map[0 := SPENT], invites := map[0 := INVITE]), inviteIds := {0}),
    tasks := map[1 := Listing(INVITE)], issuedInvites := map["i" := 0])

  const OFFER: seq<Move> := [Arrive(1, Resolving("a", AskInvite)), Act(1, X), Act(1, X), Act(1, X), Act(1, Y)]

  lemma Offering()
    ensures var s := BOOTED.(tasks := map[1 := Serving(0, AskInvite)]);
            var s' := BOOTED.(tasks := map[1 := StoringInvite(0)]);
            Allowed(s, Act(1, X)) && Next(s, Act(1, X)) == s'
  {
    hide Creating, Following;
    var s := BOOTED.(tasks := map[1 := Serving(0, AskInvite)]);
    LiveFirst();
    PlainStep(s, 1, X, StoringInvite(0), MEM);
    assert s.tasks[1 := StoringInvite(0)] == map[1 := StoringInvite(0)];
  }

  lemma OfferCommits()
    ensures Perform(BOOKS.db, MEM, StoringInvite(0), Y)
         == Effect(MEM, Some(Ledger.AddInvite(INVITE)), Some(Listing(INVITE)))
    ensures Ledger.Commit(BOOKS, Ledger.AddInvite(INVITE)) == OFFERED.books
  {
    hide Creating, Entering;
  }

  lemma OfferStored()
    ensures var s := BOOTED.(tasks := map[1 := StoringInvite(0)]);
            Allowed(s, Act(1, Y)) && Next(s, Act(1, Y)) == OFFERED
  {
    hide Perform, Ledger.Commit;
    OfferCommits();
    LiveFirst();
    var s := BOOTED.(tasks := map[1 := StoringInvite(0)]);
    TxStep(s, 1, Y, Ledger.AddInvite(INVITE), Listing(INVITE), OFFERED.books);
    assert s.tasks[1 := Listing(INVITE)] == map[1 := Listing(INVITE)];
    assert s.issued + map[] == s.issued && s.accounts + map[] == s.accounts && s.seen + {} == s.seen;
    assert map[] + map["i" := 0] == map["i" := 0];
  }

  lemma Offered()
    ensures Leads(COLD, BOOT + OFFER, OFFERED)
  {
    Booted();
    LiveFirst();
    Offering();
    OfferStored();
    hide Leads, Next, Allowed;
    var s1 := BOOTED.(tasks := map[1 := Serving(0, AskInvite)]);
    AdminArrives(BOOT, BOOTED, 1, AskInvite, s1);
    var es := BOOT + [Arrive(1, Resolving("a", AskInvite)), Act(1, X), Act(1, X)];
    LeadsOn(COLD, es, s1, Act(1, X), BOOTED.(tasks := map[1 := StoringInvite(0)]));
    LeadsOn(COLD, es + [Act(1, X)], BOOTED.(tasks := map[1 := StoringInvite(0)]), Act(1, Y), OFFERED);
    assert BOOT + OFFER == es + [Act(1, X)] + [Act(1, Y)];
  }

  // The invite is deleted before it is listed.

  const WITHDRAW: seq<Move> :=
    [Arrive(2, Resolving("a", AskDropInvite(0))), Act(2, X), Act(2, X), Act(2, X), Act(2, X), Act(1, X), Act(1, X)]

  const ASKED := OFFERED.(tasks := map[1 := Listing(INVITE), 2 := Serving(0, AskDropInvite(0))])

  const WITHDRAWN := OFFERED.(books := BOOKS.(inviteIds := {0}),
    tasks := map[1 := Listing(INVITE), 2 := Unlisting(0, 0)])

  const UNLISTED := WITHDRAWN.(tasks := map[1 := Listing(INVITE)])

  const LISTED_LATE := UNLISTED.(mem := MEM.(inviteTokens := map["i" := 0]), tasks := map[1 := Counting(0, 1)])

  const HOSTED := MEM.(users := map[0 := FIRST.(user := SPENT)], inviteTokens := map["i" := 0])

  const COUNTED_LATE := UNLISTED.(mem := HOSTED, tasks := map[])

  lemma LiveSpent()
    ensures Live(HOSTED.users) == {FIRST.uptime}
  {
    assert HOSTED.users[0].uptime == FIRST.uptime;
  }

  lemma WithdrawalCommits()
    ensures Perform(OFFERED.books.db, MEM, Serving(0, AskDropInvite(0)), X)
         == Effect(MEM, Some(Ledger.RemoveInvite(0, 0)), Some(Unlisting(0, 0)))
    ensures Ledger.Commit(OFFERED.books, Ledger.RemoveInvite(0, 0)) == WITHDRAWN.books
  {
    hide Creating, Following;
    var db := OFFERED.books.db;
    assert db.invites - {0} == map[];
    assert DeleteInvite(db, 0, 0).1 == 1;
  }

  lemma Withdrawn()
    ensures Allowed(ASKED, Act(2, X)) && Next(ASKED, Act(2, X)) == WITHDRAWN
  {
    hide Perform, Ledger.Commit, Live, Next, Allowed;
    WithdrawalCommits();
    LiveFirst();
    QuietStep(ASKED, 2, X, Ledger.RemoveInvite(0, 0), Unlisting(0, 0), WITHDRAWN.books);
    assert ASKED.tasks[2 := Unlisting(0, 0)] == WITHDRAWN.tasks;
  }

  lemma UnlistedEffect()
    ensures Perform(WITHDRAWN.books.db, MEM, Unlisting(0, 0), X) == Effect(MEM, None, None)
  {
    hide Creating, Entering;
    assert DropInvites(MEM, {0}).inviteTokens == map[];
  }

  lemma Unlisted()
    ensures Allowed(WITHDRAWN, Act(2, X)) && Next(WITHDRAWN, Act(2, X)) == UNLISTED
  {
    hide Perform, Live, Next, Allowed;
    LiveFirst();
    UnlistedEffect();
    LastStep(WITHDRAWN, 2, X, MEM);
    assert WITHDRAWN.tasks - {2} == UNLISTED.tasks;
  }

  lemma ListedLateEffect()
    ensures Perform(UNLISTED.books.db, MEM, Listing(INVITE), X) == Effect(LISTED_LATE.mem, None, Some(Counting(0, 1)))
  {
    hide Creating, Entering;
  }

  lemma ListedLate()
    ensures Allowed(UNLISTED, Act(1, X)) && Next(UNLISTED, Act(1, X)) == LISTED_LATE
  {
    hide Perform, Live, Next, Allowed;
    LiveFirst();
    ListedLateEffect();
    PlainStep(UNLISTED, 1, X, Counting(0, 1), LISTED_LATE.mem);
    assert UNLISTED.tasks[1 := Counting(0, 1)] == LISTED_LATE.tasks;
  }

  lemma AdminIsCounted()
    ensures FIRST.(user := UsedPlus(FIRST.user, 1)) == FIRST.(user := SPENT)
  {
  }

  lemma InviteIsCounted()
    ensures BumpUsed(LISTED_LATE.mem, 0, 1) == HOSTED
  {
    AdminIsCounted();
    hide UsedPlus;
    assert LISTED_LATE.mem.users == map[0 := FIRST];
    assert LISTED_LATE.mem.users[0 := FIRST.(user := SPENT)] == HOSTED.users;
  }

  lemma CountedEffect(db: Db)
    ensures Perform(db, LISTED_LATE.mem, Counting(0, 1), X) == Effect(HOSTED, None, None)
  {
    hide Creating, Entering, BumpUsed;
    InviteIsCounted();
  }

  lemma CountedLate()
    ensures Allowed(LISTED_LATE, Act(1, X)) && Next(LISTED_LATE, Act(1, X)) == COUNTED_LATE
  {
    hide Perform, Live, Next, Allowed;
    LiveSpent();
    CountedEffect(LISTED_LATE.books.db);
    LastStep(LISTED_LATE, 1, X, HOSTED);
    assert LISTED_LATE.tasks - {1} == map[];
  }

  /** A run of the server from its first start at whose end, with nothing left under way, the list accepts the token of
      an invite that is not in the table, and the map counts one invite more than the table. */
  lemma InviteCanHaunt()
    ensures AllAllowed(COLD, BOOT + OFFER + WITHDRAW)
    ensures var s := After(COLD, BOOT + OFFER + WITHDRAW);
            && s.tasks == map[] && "i" in s.mem.inviteTokens && s.books.db.invites == map[]
            && 0 in s.mem.users && s.mem.users[0].user.invitesUsed == 1
            && 0 in s.books.db.users && s.books.db.users[0].invitesUsed == 0
  {
    Offered();
    LiveFirst();
    Withdrawn();
    Unlisted();
    ListedLate();
    CountedLate();
    hide Next, Allowed;
    var es := BOOT + OFFER;
    AdminArrives(es, OFFERED, 2, AskDropInvite(0), ASKED);
    var asked := es + [Arrive(2, Resolving("a", AskDropInvite(0))), Act(2, X), Act(2, X)];
    LeadsOn(COLD, asked, ASKED, Act(2, X), WITHDRAWN);
    LeadsOn(COLD, asked + [Act(2, X)], WITHDRAWN, Act(2, X), UNLISTED);
    LeadsOn(COLD, asked + [Act(2, X)] + [Act(2, X)], UNLISTED, Act(1, X), LISTED_LATE);
    LeadsOn(COLD, asked + [Act(2, X)] + [Act(2, X)] + [Act(1, X)], LISTED_LATE, Act(1, X), COUNTED_LATE);
    assert asked + [Act(2, X)] + [Act(2, X)] + [Act(1, X)] + [Act(1, X)] == BOOT + OFFER + WITHDRAW;
  }

  // ----- A ghost user -----

  const GUEST := NewUserReq(Some("i"), Normal, 0, None, true, "en")

  const Z := Env(false, Drawn(1, 1, "j", Some(NtfyUser(1, true, "topic", "user", "password")), 0), 0, "", 0, 0)

  const SECOND := UserState(
    User(1, Normal, 0, 0, 0, "j", 60, 1, "en", None, None),
    NtfyUser(1, true, "topic", "user", "password"),
    UptimeRow(1, 0, 0, Uninitialized, 1, 0, None))

  /** The invite is listed and counted. */
  const LISTED := OFFERED.(mem := MEM.(inviteTokens := map["i" := 0]), tasks := map[1 := Counting(0, 1)])

  const OPEN := OFFERED.(mem := HOSTED, tasks := map[])

  const INVITING := OPEN.(tasks := map[2 := JoinStart(GUEST)])

  const FOUND := OPEN.(tasks := map[2 := JoinFound(GUEST, 0)])

  /** The guest is stored and not yet in the map. */
  const JOINED := OPEN.(
    books := Ledger.Books(
      Db(map[0 := SPENT, 1 := SECOND.user], map[0 := FIRST.ntfy, 1 := SECOND.ntfy],
        map[0 := FIRST.uptime, 1 := SECOND.uptime],
         map[0 := INVITE.(isUsed := true, userId := Some(1))]),
      {0, 1}, {0}, [Ledger.Use(0, 0, 1)]),
    tasks := map[2 := Consuming(SECOND, "i")], seen := {FIRST.uptime, SECOND.uptime},
    issued := map["a" := 0, "j" := 1], accounts := map[0 := 0, 1 := 1])

  const JOIN: seq<Move> := [Act(1, X), Act(1, X), Arrive(2, JoinStart(GUEST)), Act(2, X), Act(2, Z)]

  lemma ListedEffect()
    ensures Perform(OFFERED.books.db, MEM, Listing(INVITE), X) == Effect(LISTED.mem, None, Some(Counting(0, 1)))
  {
    hide Creating, Entering;
  }

  lemma ListedNow()
    ensures Allowed(OFFERED, Act(1, X)) && Next(OFFERED, Act(1, X)) == LISTED
  {
    hide Perform, Live, Next, Allowed;
    LiveFirst();
    ListedEffect();
    PlainStep(OFFERED, 1, X, Counting(0, 1), LISTED.mem);
    assert OFFERED.tasks[1 := Counting(0, 1)] == LISTED.tasks;
  }

  lemma CountedNow()
    ensures Allowed(LISTED, Act(1, X)) && Next(LISTED, Act(1, X)) == OPEN
  {
    hide Perform, Live, Next, Allowed;
    LiveSpent();
    CountedEffect(LISTED.books.db);
    LastStep(LISTED, 1, X, HOSTED);
    assert LISTED.tasks - {1} == map[];
  }

  lemma GuestEffect()
    ensures Perform(INVITING.books.db, HOSTED, JoinStart(GUEST), X) == Effect(HOSTED, None, Some(JoinFound(GUEST, 0)))
  {
    hide Entering, Following;
  }

  lemma GuestArrives()
    ensures Allowed(OPEN, Arrive(2, JoinStart(GUEST))) && Next(OPEN, Arrive(2, JoinStart(GUEST))) == INVITING
  {
    hide Perform, Live;
  }

  lemma GuestIsInvited()
    ensures Allowed(INVITING, Act(2, X)) && Next(INVITING, Act(2, X)) == FOUND
  {
    hide Perform, Live, Next, Allowed;
    LiveSpent();
    GuestEffect();
    PlainStep(INVITING, 2, X, JoinFound(GUEST, 0), HOSTED);
    assert INVITING.tasks[2 := JoinFound(GUEST, 0)] == FOUND.tasks;
  }

  lemma JoinEffect()
    ensures Perform(OPEN.books.db, HOSTED, JoinFound(GUEST, 0), Z)
         == Effect(HOSTED, Some(Ledger.AddState(SECOND, Some(0))), Some(Consuming(SECOND, "i")))
  {
    hide Entering, Following;
    assert Prepared(GUEST, Z.drawn) == Some(SECOND);
  }

  lemma JoinCommits()
    ensures Ledger.Commit(OPEN.books, Ledger.AddState(SECOND, Some(0))) == JOINED.books
  {
    assert {0 as ID} + {1} == {0, 1};
  }

  lemma JoinIsFresh()
    ensures FreshDraw(FOUND, Ledger.AddState(SECOND, Some(0)))
  {
  }

  lemma JoinIsNew()
    ensures var tx := Ledger.AddState(SECOND, Some(0));
            && NewAdmins(tx) == {} && NewRows(tx) == {SECOND.uptime} && NewTokens(tx) == map["j" := 1]
            && NewInviteTokens(tx) == map[] && NewAccounts(tx) == map[1 := 1]
  {
  }

  lemma GuestIsSeen()
    ensures FOUND.seen + {SECOND.uptime} == JOINED.seen
  {
    assert FOUND.seen == {FIRST.uptime} && JOINED.seen == {FIRST.uptime, SECOND.uptime};
  }

  lemma GuestIsIssued()
    ensures FOUND.issued + map["j" := 1] == JOINED.issued && FOUND.issuedInvites + map[] == FOUND.issuedInvites
  {
    assert FOUND.issued == map["a" := 0];
  }

  lemma GuestHasAccount()
    ensures FOUND.accounts + map[1 := 1] == JOINED.accounts && FOUND.tasks[2 := Consuming(SECOND, "i")] == JOINED.tasks
  {
    assert FOUND.accounts == map[0 := 0];
  }

  lemma Joined()
    ensures Allowed(FOUND, Act(2, Z)) && Next(FOUND, Act(2, Z)) == JOINED
  {
    hide Perform, Live, Ledger.Commit, Next, Allowed, FreshDraw, NewAdmins, NewRows, NewTokens, NewInviteTokens,
      NewAccounts;
    JoinEffect();
    JoinCommits();
    JoinIsFresh();
    JoinIsNew();
    LiveSpent();
    TxStep(FOUND, 2, Z, Ledger.AddState(SECOND, Some(0)), Consuming(SECOND, "i"), JOINED.books);
    GuestIsSeen();
    GuestIsIssued();
    GuestHasAccount();
  }

  /** A run to where the invite is used and its token still on the list. */
  lemma GuestIsStored()
    ensures Leads(COLD, BOOT + OFFER + JOIN, JOINED)
  {
    Offered();
    ListedNow();
    CountedNow();
    GuestArrives();
    GuestIsInvited();
    Joined();
    hide Leads, Next, Allowed;
    var es := BOOT + OFFER;
    LeadsOn(COLD, es, OFFERED, Act(1, X), LISTED);
    LeadsOn(COLD, es + [Act(1, X)], LISTED, Act(1, X), OPEN);
    LeadsOn(COLD, es + [Act(1, X)] + [Act(1, X)], OPEN, Arrive(2, JoinStart(GUEST)), INVITING);
    var arrived := es + [Act(1, X)] + [Act(1, X)] + [Arrive(2, JoinStart(GUEST))];
    LeadsOn(COLD, arrived, INVITING, Act(2, X), FOUND);
    LeadsOn(COLD, arrived + [Act(2, X)], FOUND, Act(2, Z), JOINED);
    assert arrived + [Act(2, X)] + [Act(2, Z)] == BOOT + OFFER + JOIN;
  }

  // The guest is deleted before they are in the map.

  const EXPEL: seq<Move> :=
    [Arrive(3, Resolving("a", AskDropUser(1))), Act(3, X), Act(3, X), Act(3, X), Act(3, X), Act(3, X), Act(3, X),
     Act(2, X), Act(2, X), Act(2, X)]

  const ARRIVING := Consuming(SECOND, "i")

  const DELETING := JOINED.(tasks := map[2 := ARRIVING, 3 := DeletingUser(1, {})])

  const DELETED := JOINED.(
    books := Ledger.Books(
      Db(map[0 := SPENT], map[0 := FIRST.ntfy], map[0 := FIRST.uptime], map[0 := INVITE.(isUsed := true)]),
      {0, 1}, {0}, [Ledger.Use(0, 0, 1)]),
    tasks := map[2 := ARRIVING, 3 := DroppingUser(1, {})])

  const SKIPPED := DELETED.(tasks := map[2 := ARRIVING, 3 := DroppingInvites({})])

  const REPORTED := DELETED.(tasks := map[2 := ARRIVING])

  const STRUCK := REPORTED.(mem := HOSTED.(inviteTokens := map[]), tasks := map[2 := AddingToken(SECOND, false)])

  const ACCEPTED := STRUCK.(
    mem := STRUCK.mem.(tokens := map["a" := 0, "j" := 1]), tasks := map[2 := AddingUser(SECOND, false)])

  const HAUNTED := ACCEPTED.(
    mem := ACCEPTED.mem.(users := map[0 := FIRST.(user := SPENT), 1 := SECOND]), tasks := map[])

  lemma ExpellingEffect()
    ensures Perform(JOINED.books.db, HOSTED, Serving(0, AskDropUser(1)), X)
         == Effect(HOSTED, None, Some(DeletingUser(1, {})))
  {
    hide Creating, Following;
    assert UnusedOf(JOINED.books.db, 1) == {};
  }

  lemma Expelling()
    ensures var s := JOINED.(tasks := map[2 := ARRIVING, 3 := Serving(0, AskDropUser(1))]);
            Allowed(s, Act(3, X)) && Next(s, Act(3, X)) == DELETING
  {
    hide Perform, Live, Next, Allowed;
    LiveSpent();
    ExpellingEffect();
    var s := JOINED.(tasks := map[2 := ARRIVING, 3 := Serving(0, AskDropUser(1))]);
    PlainStep(s, 3, X, DeletingUser(1, {}), HOSTED);
    assert s.tasks[3 := DeletingUser(1, {})] == DELETING.tasks;
  }

  const WITHOUT := DELETED.books.db.(ntfy := JOINED.books.db.ntfy)

  lemma GuestIsOut()
    ensures JOINED.books.db.users - {1} == WITHOUT.users
  {
  }

  lemma RowOfGuestGoes()
    ensures DropUsers(JOINED.books.db, {1}).uptimes == WITHOUT.uptimes
  {
    assert JOINED.books.db.uptimes == map[0 := FIRST.uptime, 1 := SECOND.uptime];
  }

  lemma InviteOfGuestStays()
    ensures DropUsers(JOINED.books.db, {1}).invites == WITHOUT.invites
  {
    assert JOINED.books.db.invites == map[0 := INVITE.(isUsed := true, userId := Some(1))];
  }

  lemma RowsOfGuestGo()
    ensures DropUsers(JOINED.books.db, {1}) == WITHOUT
  {
    GuestIsOut();
    RowOfGuestGoes();
    InviteOfGuestStays();
  }

  lemma RemovalOfGuest()
    ensures DeleteUser(JOINED.books.db, 1) == Ok(DELETED.books.db)
  {
    hide DropUsers;
    RowsOfGuestGo();
    assert Referencing(WITHOUT, 1) == {};
    DropNobody(WITHOUT);
    assert WITHOUT.ntfy - {1} == map[0 := FIRST.ntfy];
  }

  lemma DeletedEffect()
    ensures Perform(JOINED.books.db, HOSTED, DeletingUser(1, {}), X)
         == Effect(HOSTED, Some(Ledger.RemoveUser(1)), Some(DroppingUser(1, {})))
  {
    hide Creating, Entering, DeleteUser;
    RemovalOfGuest();
  }

  lemma DeletedCommits()
    ensures Ledger.Commit(JOINED.books, Ledger.RemoveUser(1)) == DELETED.books
  {
    hide DeleteUser;
    RemovalOfGuest();
  }

  lemma Deleted()
    ensures Allowed(DELETING, Act(3, X)) && Next(DELETING, Act(3, X)) == DELETED
  {
    hide Perform, Ledger.Commit, Live, Next, Allowed;
    LiveSpent();
    DeletedEffect();
    DeletedCommits();
    QuietStep(DELETING, 3, X, Ledger.RemoveUser(1), DroppingUser(1, {}), DELETED.books);
    assert DELETING.tasks[3 := DroppingUser(1, {})] == DELETED.tasks;
  }

  lemma SkippedEffect()
    ensures Perform(DELETED.books.db, HOSTED, DroppingUser(1, {}), X) == Effect(HOSTED, None, Some(DroppingInvites({})))
  {
    hide Creating, Entering;
  }

  lemma Skipped()
    ensures Allowed(DELETED, Act(3, X)) && Next(DELETED, Act(3, X)) == SKIPPED
  {
    hide Perform, Live, Next, Allowed;
    LiveSpent();
    SkippedEffect();
    PlainStep(DELETED, 3, X, DroppingInvites({}), HOSTED);
    assert DELETED.tasks[3 := DroppingInvites({})] == SKIPPED.tasks;
  }

  lemma ReportedEffect()
    ensures Perform(DELETED.books.db, HOSTED, DroppingInvites({}), X) == Effect(HOSTED, None, None)
  {
    hide Creating, Entering;
    assert DropInvites(HOSTED, {}).inviteTokens == HOSTED.inviteTokens;
  }

  lemma Reported()
    ensures Allowed(SKIPPED, Act(3, X)) && Next(SKIPPED, Act(3, X)) == REPORTED
  {
    hide Perform, Live, Next, Allowed;
    LiveSpent();
    ReportedEffect();
    LastStep(SKIPPED, 3, X, HOSTED);
    assert SKIPPED.tasks - {3} == REPORTED.tasks;
  }

  lemma StruckEffect()
    ensures Perform(DELETED.books.db, HOSTED, ARRIVING, X) == Effect(STRUCK.mem, None, Some(AddingToken(SECOND, false)))
  {
    hide Entering, Following;
    assert HOSTED.inviteTokens - {"i"} == map[];
  }

  lemma Struck()
    ensures Allowed(REPORTED, Act(2, X)) && Next(REPORTED, Act(2, X)) == STRUCK
  {
    hide Perform, Live, Next, Allowed;
    LiveSpent();
    StruckEffect();
    PlainStep(REPORTED, 2, X, AddingToken(SECOND, false), STRUCK.mem);
    assert REPORTED.tasks[2 := AddingToken(SECOND, false)] == STRUCK.tasks;
  }

  lemma AcceptingEffect()
    ensures Perform(DELETED.books.db, STRUCK.mem, AddingToken(SECOND, false), X)
         == Effect(ACCEPTED.mem, None, Some(AddingUser(SECOND, false)))
  {
    hide Entering, Following;
  }

  lemma Accepting()
    ensures Allowed(STRUCK, Act(2, X)) && Next(STRUCK, Act(2, X)) == ACCEPTED
  {
    hide Perform, Live, Next, Allowed;
    LiveSpent();
    AcceptingEffect();
    PlainStep(STRUCK, 2, X, AddingUser(SECOND, false), ACCEPTED.mem);
    assert STRUCK.tasks[2 := AddingUser(SECOND, false)] == ACCEPTED.tasks;
  }

  lemma LiveHaunted()
    ensures Live(HAUNTED.mem.users) <= HAUNTED.seen
  {
    assert HAUNTED.mem.users == map[0 := FIRST.(user := SPENT), 1 := SECOND];
    assert HAUNTED.seen == {FIRST.uptime, SECOND.uptime};
  }

  lemma EnteredEffect()
    ensures Perform(DELETED.books.db, ACCEPTED.mem, AddingUser(SECOND, false), X) == Effect(HAUNTED.mem, None, None)
  {
    hide Entering, Following;
  }

  lemma Entered()
    ensures Allowed(ACCEPTED, Act(2, X)) && Next(ACCEPTED, Act(2, X)) == HAUNTED
  {
    hide Perform, Live, Next, Allowed;
    LiveHaunted();
    EnteredEffect();
    LastStep(ACCEPTED, 2, X, HAUNTED.mem);
    assert ACCEPTED.tasks - {2} == map[];
  }

  lemma Expelled()
    ensures Leads(COLD, BOOT + OFFER + JOIN + EXPEL[..5], DELETED)
  {
    hide Leads, Next, Allowed;
    GuestIsStored();
    LiveSpent();
    Expelling();
    Deleted();
    var es := BOOT + OFFER + JOIN;
    var s1 := JOINED.(tasks := map[2 := ARRIVING, 3 := Serving(0, AskDropUser(1))]);
    AdminArrives(es, JOINED, 3, AskDropUser(1), s1);
    var asked := es + [Arrive(3, Resolving("a", AskDropUser(1))), Act(3, X), Act(3, X)];
    LeadsOn(COLD, asked, s1, Act(3, X), DELETING);
    LeadsOn(COLD, asked + [Act(3, X)], DELETING, Act(3, X), DELETED);
    assert asked + [Act(3, X)] + [Act(3, X)] == es + EXPEL[..5];
  }

  /** A run of the server from its first start at whose end, with nothing left under way, a user is in the map, and
      their token accepted, who is not in the table. */
  lemma UserCanHaunt()
    ensures AllAllowed(COLD, BOOT + OFFER + JOIN + EXPEL)
    ensures var s := After(COLD, BOOT + OFFER + JOIN + EXPEL);
            && s.tasks == map[] && 1 in s.mem.users && Caller(s.mem, "j") == Some(1) && 1 !in s.books.db.users
  {
    hide Next, Allowed;
    Expelled();
    Skipped();
    Reported();
    Struck();
    Accepting();
    Entered();
    var es := BOOT + OFFER + JOIN + EXPEL[..5];
    LeadsOn(COLD, es, DELETED, Act(3, X), SKIPPED);
    LeadsOn(COLD, es + [Act(3, X)], SKIPPED, Act(3, X), REPORTED);
    var left := es + [Act(3, X)] + [Act(3, X)];
    LeadsOn(COLD, left, REPORTED, Act(2, X), STRUCK);
    LeadsOn(COLD, left + [Act(2, X)], STRUCK, Act(2, X), ACCEPTED);
    LeadsOn(COLD, left + [Act(2, X)] + [Act(2, X)], ACCEPTED, Act(2, X), HAUNTED);
    assert left + [Act(2, X)] + [Act(2, X)] + [Act(2, X)] == BOOT + OFFER + JOIN + EXPEL;
  }
}
