/** Runs from the cold server that lead to where the races start. */
module Witnesses {
  import opened Base
  import opened Uptime
  import opened Models
  import opened Device
  import opened Memory
  import opened Tables
  import opened Registry
  import opened Concurrent
  import opened Regenerations
  import opened Races
  import Profiles
  import Ledger

  ghost predicate Leads(s: Server, es: seq<Move>, s': Server) {
    AllAllowed(s, es) && After(s, es) == s'
  }

  lemma LeadsOn(s: Server, es: seq<Move>, s1: Server, e: Move, s2: Server)
    requires Leads(s, es, s1) && Allowed(s1, e) && Next(s1, e) == s2
    ensures Leads(s, es + [e], s2)
  {
    hide Next, Allowed;
    OneMoreMove(s, es, e);
  }

  const OPTIONS := NewUserReq(None, Admin, 1, None, true, "en")
  const DRAWN := Drawn(0, 0, "a", Some(NtfyUser(0, true, "topic", "user", "password")), 0)

  function EnvAt(token: string, at: Time): Env {
    Env(false, DRAWN, 0, token, at, at)
  }

  const X := EnvAt("", 0)

  /** The admin, as `create_user` stores it. */
  const FIRST := UserState(
    User(0, Admin, 0, 1, 0, "a", 60, 0, "en", None, None),
    NtfyUser(0, true, "topic", "user", "password"),
    UptimeRow(0, 0, 0, Uninitialized, 0, 0, None))

  const BOOKS := Ledger.Books(Db(map[0 := FIRST.user], map[0 := FIRST.ntfy], map[0 := FIRST.uptime], map[]), {0}, {},
    [])

  const MEM := Mem(map[0 := FIRST], map["a" := 0], map[])

  /** The server when the admin has just been created. */
  const BOOTED := Server(BOOKS, MEM, None, map[], {0}, {FIRST.uptime}, map["a" := 0], map[], map[0 := 0])

  const BOOT: seq<Move> :=
    [Arrive(0, BootWaiting(OPTIONS)), Act(0, X), Act(0, X), Act(0, X), Act(0, X), Act(0, X)]

  lemma FirstIsPrepared()
    ensures Prepared(OPTIONS, DRAWN) == Some(FIRST)
  {
  }

  lemma Locked()
    ensures Leads(COLD, BOOT[..3], COLD.(tasks := map[0 := BootAllowed(OPTIONS)], lock := Some(0)))
  {
    var s1 := COLD.(tasks := map[0 := BootWaiting(OPTIONS)]);
    var s2 := COLD.(tasks := map[0 := BootHolding(OPTIONS)], lock := Some(0));
    var s3 := COLD.(tasks := map[0 := BootAllowed(OPTIONS)], lock := Some(0));
    NoMoves(COLD);
    LeadsOn(COLD, [], COLD, BOOT[0], s1);
    LeadsOn(COLD, [] + [BOOT[0]], s1, BOOT[1], s2);
    LeadsOn(COLD, [] + [BOOT[0]] + [BOOT[1]], s2, BOOT[2], s3);
    assert BOOT[..3] == [] + [BOOT[0]] + [BOOT[1]] + [BOOT[2]];
  }

  lemma Stored()
    ensures var s := COLD.(tasks := map[0 := BootAllowed(OPTIONS)], lock := Some(0));
            && Allowed(s, Act(0, X))
            && Next(s, Act(0, X)) == Server(BOOKS, EMPTY_MEM, Some(0), map[0 := AddingToken(FIRST, true)], {0},
                                            {FIRST.uptime}, map["a" := 0], map[], map[0 := 0])
  {
    FirstIsPrepared();
    hide Prepared, Entering, Following;
    assert {} + {0 as ID} == {0};
    var s := COLD.(tasks := map[0 := BootAllowed(OPTIONS)], lock := Some(0));
    var f := Perform(s.books.db, s.mem, s.tasks[0], X);
    assert f == Effect(EMPTY_MEM, Some(Ledger.AddState(FIRST, None)), Some(AddingToken(FIRST, true)));
    assert Ledger.Commit(s.books, f.tx.value) == BOOKS;
  }

  lemma Cached()
    ensures var s4 := Server(BOOKS, EMPTY_MEM, Some(0), map[0 := AddingToken(FIRST, true)], {0},
                             {FIRST.uptime}, map["a" := 0], map[], map[0 := 0]);
            var s5 := s4.(mem := EMPTY_MEM.(tokens := map["a" := 0]), tasks := map[0 := AddingUser(FIRST, true)]);
            && Allowed(s4, Act(0, X)) && Next(s4, Act(0, X)) == s5
            && Allowed(s5, Act(0, X)) && Next(s5, Act(0, X)) == BOOTED
  {
    hide Prepared, Entering, Following;
    LiveFirst();
    var s4 := Server(BOOKS, EMPTY_MEM, Some(0), map[0 := AddingToken(FIRST, true)], {0}, {FIRST.uptime},
      map["a" := 0], map[], map[0 := 0]);
    var f := Perform(s4.books.db, s4.mem, s4.tasks[0], X);
    assert f == Effect(EMPTY_MEM.(tokens := map["a" := 0]), None, Some(AddingUser(FIRST, true)));
    assert Live(f.mem.users) == {};
    var s5 := s4.(mem := EMPTY_MEM.(tokens := map["a" := 0]), tasks := map[0 := AddingUser(FIRST, true)]);
    var g := Perform(s5.books.db, s5.mem, s5.tasks[0], X);
    assert g == Effect(MEM, None, None);
  }

  /** The first user can be created. */
  lemma Booted()
    ensures Leads(COLD, BOOT, BOOTED)
  {
    Locked();
    Stored();
    Cached();
    hide Next, Allowed;
    var s3 := COLD.(tasks := map[0 := BootAllowed(OPTIONS)], lock := Some(0));
    var s4 := Server(BOOKS, EMPTY_MEM, Some(0), map[0 := AddingToken(FIRST, true)], {0}, {FIRST.uptime},
      map["a" := 0], map[], map[0 := 0]);
    var s5 := s4.(mem := EMPTY_MEM.(tokens := map["a" := 0]), tasks := map[0 := AddingUser(FIRST, true)]);
    LeadsOn(COLD, BOOT[..3], s3, BOOT[3], s4);
    LeadsOn(COLD, BOOT[..3] + [BOOT[3]], s4, BOOT[4], s5);
    LeadsOn(COLD, BOOT[..3] + [BOOT[3]] + [BOOT[4]], s5, BOOT[5], BOOTED);
    assert BOOT == BOOT[..3] + [BOOT[3]] + [BOOT[4]] + [BOOT[5]];
  }

  // ----- Two regenerations -----

  const BOTH_ASK: seq<Move> :=
    [Arrive(1, Resolving("a", AskToken)), Act(1, X), Arrive(2, Resolving("a", AskToken)), Act(2, X)]

  const BOTH_ASKING := BOOTED.(tasks := map[1 := Serving(0, AskToken), 2 := Serving(0, AskToken)])

  lemma LiveFirst()
    ensures Live(MEM.users) == {FIRST.uptime}
  {
    assert MEM.users[0] == FIRST;
  }

  /** Whoever holds an accepted token is served. */
  lemma AskArrives(s: Server, t: ID, token: string, ask: Ask)
    requires t !in s.tasks && s.lock == None && token in s.mem.tokens && !AdminOnly(ask) && Live(s.mem.users) <= s.seen
    ensures var s1 := s.(tasks := s.tasks[t := Resolving(token, ask)]);
            && Allowed(s, Arrive(t, Resolving(token, ask))) && Next(s, Arrive(t, Resolving(token, ask))) == s1
            && Allowed(s1, Act(t, X)) && Next(s1, Act(t, X)) ==
               s.(tasks := s.tasks[t := Serving(s.mem.tokens[token], ask)])
  {
    hide Creating, Following, First;
    var s1 := s.(tasks := s.tasks[t := Resolving(token, ask)]);
    var s2 := Next(s1, Act(t, X));
    assert s2.tasks == s.tasks[t := Serving(s.mem.tokens[token], ask)];
    assert s2.seen == s.seen && s2.admins == s.admins && s2.issued == s.issued && s2.issuedInvites == s.issuedInvites
        && s2.accounts == s.accounts;
  }

  lemma AskLeads(es: seq<Move>, s: Server, t: ID, token: string, ask: Ask, s': Server)
    requires Leads(COLD, es, s)
    requires t !in s.tasks && s.lock == None && token in s.mem.tokens && !AdminOnly(ask) && Live(s.mem.users) <= s.seen
    requires s' == s.(tasks := s.tasks[t := Serving(s.mem.tokens[token], ask)])
    ensures Leads(COLD, es + [Arrive(t, Resolving(token, ask)), Act(t, X)], s')
  {
    AskArrives(s, t, token, ask);
    hide Next, Allowed, Leads;
    var arrive, act := Arrive(t, Resolving(token, ask)), Act(t, X);
    var s1 := s.(tasks := s.tasks[t := Resolving(token, ask)]);
    LeadsOn(COLD, es, s, arrive, s1);
    LeadsOn(COLD, es + [arrive], s1, act, s');
    assert es + [arrive] + [act] == es + [arrive, act];
  }

  lemma BothAsk()
    ensures Leads(COLD, BOOT + BOTH_ASK, BOTH_ASKING)
  {
    Booted();
    LiveFirst();
    hide Leads;
    var s1 := BOOTED.(tasks := map[1 := Serving(0, AskToken)]);
    assert BOTH_ASK[..2] == [Arrive(1, Resolving("a", AskToken)), Act(1, X)];
    AskLeads(BOOT, BOOTED, 1, "a", AskToken, s1);
    AskLeads(BOOT + BOTH_ASK[..2], s1, 2, "a", AskToken, BOTH_ASKING);
    assert BOOT + BOTH_ASK == BOOT + BOTH_ASK[..2] + [Arrive(2, Resolving("a", AskToken)), Act(2, X)];
  }

  lemma BothStartInAgreement()
    ensures TwoRegenerations(BOTH_ASKING, 0, 1, 2, "b", "c")
    ensures InAgreement(BOTH_ASKING, 0) && Settled(BOTH_ASKING.tasks, 0)
  {
    assert Accepted(MEM, 0) == {"a"};
  }

  lemma BothCross()
    ensures var moves := Crossing(1, 2, EnvAt("b", 0), EnvAt("c", 0));
            var after := After(BOTH_ASKING, moves);
            AllAllowed(BOTH_ASKING, moves) && !InAgreement(after, 0) && Settled(after.tasks, 0)
  {
    BothStartInAgreement();
    hide Next, Allowed, After, AllAllowed, Accepted, InAgreement, TwoRegenerations;
    assert BOTH_ASKING.tasks - {1, 2} == map[];
    CrossingRegenerationsDisagree(BOTH_ASKING, 0, 1, 2, EnvAt("b", 0), EnvAt("c", 0));
    NotInAgreement(After(BOTH_ASKING, Crossing(1, 2, EnvAt("b", 0), EnvAt("c", 0))));
  }

  lemma NotInAgreement(s: Server)
    requires 0 in s.books.db.users && 0 in s.mem.users
    requires s.books.db.users[0].accessToken != s.mem.users[0].user.accessToken
    ensures !InAgreement(s, 0)
  {
  }

  /** A run of the server from its first start to two regenerations of one user that have crossed: all three places
      agreed before, nothing is left to do, and they no longer do. */
  lemma RegenerationsCanCross()
    ensures var crossing := Crossing(1, 2, EnvAt("b", 0), EnvAt("c", 0));
            var before, after := After(COLD, BOOT + BOTH_ASK), After(COLD, BOOT + BOTH_ASK + crossing);
            && AllAllowed(COLD, BOOT + BOTH_ASK + crossing)
            && TwoRegenerations(before, 0, 1, 2, "b", "c") && InAgreement(before, 0) && Settled(before.tasks, 0)
            && !InAgreement(after, 0) && Settled(after.tasks, 0)
  {
    BothAsk();
    BothStartInAgreement();
    BothCross();
    hide After, AllAllowed, InAgreement, TwoRegenerations, Settled;
    RunsConcat(COLD, BOOT + BOTH_ASK, Crossing(1, 2, EnvAt("b", 0), EnvAt("c", 0)));
  }

  // ----- A pause and a scan -----

  const UP := FIRST.uptime.(touchedAt := 1, status := Up, changedAt := 1)

  const PING := Resolving("a", AskPing)

  const PINGING := BOOTED.(tasks := map[1 := Serving(0, AskPing)])

  const TOUCHED := BOOTED.(mem := MEM.(users := map[0 := FIRST.(uptime := UP)]), tasks := map[1 := Writing([UP])],
                           seen := {FIRST.uptime, UP})

  const PINGED := TOUCHED.(books := BOOKS.(db := BOOKS.db.(uptimes := map[0 := UP])), tasks := map[])

  /** The device connects: its ping is served and written. */
  const CONNECT: seq<Move> := [Arrive(1, PING), Act(1, X), Act(1, EnvAt("", 1)), Act(1, X), Act(1, X)]

  lemma Touches()
    ensures Allowed(PINGING, Act(1, EnvAt("", 1))) && Next(PINGING, Act(1, EnvAt("", 1))) == TOUCHED
  {
    hide Creating, Following;
    var x := EnvAt("", 1);
    var f := Perform(PINGING.books.db, PINGING.mem, PINGING.tasks[1], x);
    assert f == Effect(TOUCHED.mem, None, Some(Writing([UP])));
    assert TOUCHED.mem.users[0].uptime == UP;
    assert Live(f.mem.users) == {UP};
  }

  const WRITTEN := TOUCHED.(books := PINGED.books, tasks := map[1 := Writing([])])

  lemma LiveTouched()
    ensures Live(TOUCHED.mem.users) == {UP}
  {
    assert TOUCHED.mem.users[0].uptime == UP;
  }

  lemma Lands()
    ensures Allowed(TOUCHED, Act(1, X)) && Next(TOUCHED, Act(1, X)) == WRITTEN
  {
    hide Creating, Entering, Live;
    LiveTouched();
    assert [UP][1..] == [];
    var f := Perform(TOUCHED.books.db, TOUCHED.mem, TOUCHED.tasks[1], X);
    assert f == Effect(TOUCHED.mem, Some(Ledger.WriteUptime(UP)), Some(Writing([])));
    assert Ledger.Commit(BOOKS, Ledger.WriteUptime(UP)) == PINGED.books;
  }

  lemma Ends()
    ensures Allowed(WRITTEN, Act(1, X)) && Next(WRITTEN, Act(1, X)) == PINGED
  {
    hide Creating, Entering, Live;
    LiveTouched();
    var f := Perform(WRITTEN.books.db, WRITTEN.mem, WRITTEN.tasks[1], X);
    assert f == Done(TOUCHED.mem);
  }

  lemma Connected()
    ensures Leads(COLD, BOOT + CONNECT, PINGED)
  {
    Booted();
    LiveFirst();
    Touches();
    Lands();
    Ends();
    hide Leads, Next, Allowed;
    AskLeads(BOOT, BOOTED, 1, "a", AskPing, PINGING);
    var es := BOOT + [Arrive(1, PING), Act(1, X)];
    var touch := Act(1, EnvAt("", 1));
    LeadsOn(COLD, es, PINGING, touch, TOUCHED);
    LeadsOn(COLD, es + [touch], TOUCHED, Act(1, X), WRITTEN);
    LeadsOn(COLD, es + [touch] + [Act(1, X)], WRITTEN, Act(1, X), PINGED);
    assert BOOT + CONNECT == es + [touch] + [Act(1, X)] + [Act(1, X)];
  }

  const ASK_PAUSE: seq<Move> := [Arrive(2, Resolving("a", AskPause)), Act(2, X)]

  const PAUSING := PINGED.(tasks := map[2 := Serving(0, AskPause)])

  const LATE := 62 * SECOND

  function Late(id: ID): Time {
    LATE
  }

  lemma PauseAsked()
    ensures Leads(COLD, BOOT + CONNECT + ASK_PAUSE, PAUSING)
  {
    Connected();
    assert PINGED.mem.users[0].uptime == UP;
    assert Live(PINGED.mem.users) == {UP};
    hide Leads;
    AskLeads(BOOT + CONNECT, PINGED, 2, "a", AskPause, PAUSING);
  }

  lemma PauseMeetsScan()
    ensures AboutToPause(PAUSING, 0, 3, 2, LATE, Late, [])
  {
    var users := PAUSING.mem.users;
    var down := WentDown(UP, LATE);
    assert [down] + [] == [down];
    assert FellTo(users, {}, 0, LATE, Late, down);
  }

  /** A run of the server from its first start to a pause that a scan's late write has undone in the table. */
  lemma PauseCanBeUndone()
    ensures var late := LateDown(PAUSING, 0, 3, 2, LATE, Late, [], X);
            var before, after := After(COLD, BOOT + CONNECT + ASK_PAUSE),
              After(COLD, BOOT + CONNECT + ASK_PAUSE + late);
            && AllAllowed(COLD, BOOT + CONNECT + ASK_PAUSE + late)
            && AboutToPause(before, 0, 3, 2, LATE, Late, [])
            && 0 in after.mem.users && after.mem.users[0].uptime.status == Paused
            && 0 in after.books.db.uptimes && after.books.db.uptimes[0].status == Down
  {
    PauseAsked();
    PauseMeetsScan();
    hide After, AllAllowed, AboutToPause;
    DeferredDownOverwritesPause(PAUSING, 0, 3, 2, LATE, Late, [], X);
    RunsConcat(COLD, BOOT + CONNECT + ASK_PAUSE, LateDown(PAUSING, 0, 3, 2, LATE, Late, [], X));
  }

  // ----- Two settings updates -----

  const TWENTY := UpdateSettings(Some(20), None, None)
  const THIRTY := UpdateSettings(Some(30), None, None)

  const BOTH_UPDATE: seq<Move> :=
    [Arrive(1, Resolving("a", AskSettings(TWENTY))), Act(1, X), Arrive(2, Resolving("a", AskSettings(THIRTY))),
      Act(2, X)]

  const BOTH_UPDATING := BOOTED.(tasks := map[1 := Serving(0, AskSettings(TWENTY)),
    2 := Serving(0, AskSettings(THIRTY))])

  lemma BothUpdate()
    ensures Leads(COLD, BOOT + BOTH_UPDATE, BOTH_UPDATING)
  {
    Booted();
    LiveFirst();
    hide Leads;
    var s1 := BOOTED.(tasks := map[1 := Serving(0, AskSettings(TWENTY))]);
    assert BOTH_UPDATE[..2] == [Arrive(1, Resolving("a", AskSettings(TWENTY))), Act(1, X)];
    AskLeads(BOOT, BOOTED, 1, "a", AskSettings(TWENTY), s1);
    AskLeads(BOOT + BOTH_UPDATE[..2], s1, 2, "a", AskSettings(THIRTY), BOTH_UPDATING);
    assert BOOT + BOTH_UPDATE
        == BOOT + BOTH_UPDATE[..2] + [Arrive(2, Resolving("a", AskSettings(THIRTY))), Act(2, X)];
  }

  lemma BothUpdatesStartInAgreement()
    ensures TwoUpdates(BOTH_UPDATING, 0, 1, 2, TWENTY, THIRTY)
    ensures Profiles.InAgreement(BOTH_UPDATING, 0) && Profiles.Settled(BOTH_UPDATING.tasks, 0)
  {
  }

  /** A run of the server from its first start to two settings updates of one user that have crossed: table and map
      agreed before, nothing is left under way, and they keep different delays. */
  lemma UpdatesCanCross()
    ensures var crossing := CrossingUpdates(1, 2, X);
            var before, after := After(COLD, BOOT + BOTH_UPDATE), After(COLD, BOOT + BOTH_UPDATE + crossing);
            && AllAllowed(COLD, BOOT + BOTH_UPDATE + crossing)
            && TwoUpdates(before, 0, 1, 2, TWENTY, THIRTY)
            && Profiles.InAgreement(before, 0) && Profiles.Settled(before.tasks, 0)
            && !Profiles.InAgreement(after, 0) && after.tasks == map[]
  {
    BothUpdate();
    BothUpdatesStartInAgreement();
    hide After, AllAllowed, TwoUpdates, Profiles.Settled;
    CrossingUpdatesDisagree(BOTH_UPDATING, 0, 1, 2, TWENTY, THIRTY, X);
    RunsConcat(COLD, BOOT + BOTH_UPDATE, CrossingUpdates(1, 2, X));
    assert BOTH_UPDATING.tasks - {1, 2} == map[];
  }
}
