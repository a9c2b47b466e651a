/** Three races the locks do not prevent, each from every state in which it can start. */
module Races {
  import opened Base
  import opened Uptime
  import opened Models
  import opened Device
  import opened Memory
  import opened Tables
  import opened Registry
  import opened Concurrent
  import History
  import Ledger

  // ----- A scan's write after a pause -----

  /** A device is up and overdue while its owner has asked for a pause; the coming scan will collect its row, here
      as the first, and the rows of `others`. */
  ghost predicate AboutToPause(s: Server, u: ID, t: ID, p: ID, now: Time, clock: ID -> Time, others: seq<UptimeRow>) {
    && u in s.mem.users && t != p && t !in s.tasks && p in s.tasks && s.tasks[p] == Serving(u, AskPause)
    && var d := s.mem.users[u];
       && d.uptime.status.Up? && ReachesGoDown(d, now)
       && d.uptime.id in s.books.db.uptimes && s.books.db.uptimes[d.uptime.id] == d.uptime
       && ToPersist([WentDown(d.uptime, clock(u))] + others, s.mem.users, {}, now, clock)
       && forall row | row in others :: row.id != d.uptime.id
  }

  /** The scan takes the device down; the pause comes in and is written; then the scan's own write lands. */
  function LateDown(s: Server, u: ID, t: ID, p: ID, now: Time, clock: ID -> Time, others: seq<UptimeRow>,
                    x: Env): seq<Move>
    requires u in s.mem.users
  {
    [ScanAll(t, now, clock, [WentDown(s.mem.users[u].uptime, clock(u))] + others), Act(p, x), Act(p, x), Act(t, x)]
  }

  lemma ScanTakesDown(s: Server, u: ID, t: ID, p: ID, now: Time, clock: ID -> Time, others: seq<UptimeRow>)
    requires AboutToPause(s, u, t, p, now, clock, others)
    ensures var d := s.mem.users[u];
            var down := WentDown(d.uptime, clock(u));
            var e := ScanAll(t, now, clock, [down] + others);
            var s' := Next(s, e);
            && Allowed(s, e) && s'.books == s.books && s'.tasks == s.tasks[t := Writing([down] + others)]
            && u in s'.mem.users && s'.mem.users[u] == d.(uptime := down) && down.status == Down
  {
  }

  lemma PauseFreezes(s: Server, u: ID, p: ID, x: Env)
    requires p in s.tasks && s.tasks[p] == Serving(u, AskPause) && u in s.mem.users
             && s.mem.users[u].uptime.status == Down
    ensures var s' := Next(s, Act(p, x));
            var row := s.mem.users[u].uptime.(status := Paused, prePause := Some(Down));
            && Allowed(s, Act(p, x)) && s'.books == s.books && s'.tasks == s.tasks[p := Writing([row])]
            && u in s'.mem.users && s'.mem.users[u].uptime == row
  {
    PauseEffect(s.books.db, s.mem, u, x);
    hide Perform, Ledger.Commit;
  }

  lemma PauseEffect(db: Db, m: Mem, u: ID, x: Env)
    requires u in m.users && m.users[u].uptime.status == Down
    ensures var row := m.users[u].uptime.(status := Paused, prePause := Some(Down));
            Perform(db, m, Serving(u, AskPause), x)
            == Effect(m.(users := m.users[u := m.users[u].(uptime := row)]), None, Some(Writing([row])))
  {
    hide Creating, Following;
  }

  lemma WriteLands(s: Server, t: ID, row: UptimeRow, others: seq<UptimeRow>, x: Env)
    requires t in s.tasks && s.tasks[t] == Writing([row] + others) && !x.fails
    ensures var s' := Next(s, Act(t, x));
            && Allowed(s, Act(t, x)) && s'.books.db == UpdateUptime(s.books.db, row) && s'.mem == s.mem
            && s'.tasks == s.tasks[t := Writing(others)]
  {
    hide Creating, Entering;
    assert ([row] + others)[1..] == others;
  }

  /** Writing the pause inside the critical section does not keep a scan's deferred write from undoing it: from every
      such state this order is possible, and ends with the map paused, the table down, and no write of that row left. */
  lemma DeferredDownOverwritesPause(
      s: Server, u: ID, t: ID, p: ID, now: Time, clock: ID -> Time, others: seq<UptimeRow>, x: Env)
    requires AboutToPause(s, u, t, p, now, clock, others) && !x.fails
    ensures var d := s.mem.users[u];
            var moves := LateDown(s, u, t, p, now, clock, others, x);
            var s' := After(s, moves);
            && AllAllowed(s, moves)
            && u in s'.mem.users && s'.mem.users[u].uptime.status == Paused
            && d.uptime.id in s'.books.db.uptimes && s'.books.db.uptimes[d.uptime.id].status == Down
            && t in s'.tasks && s'.tasks[t] == Writing(others) && p in s'.tasks && s'.tasks[p] == Writing([])
  {
    hide Next, Allowed, After, AllAllowed, ReachesGoDown, ToPersist, UpdateUptime;
    var d := s.mem.users[u];
    var down := WentDown(d.uptime, clock(u));
    var paused := down.(status := Paused, prePause := Some(Down));
    var scan := ScanAll(t, now, clock, [down] + others);
    var s1 := Next(s, scan);
    var s2 := Next(s1, Act(p, x));
    var s3 := Next(s2, Act(p, x));
    NoMoves(s);
    OneMoreMove(s, [], scan);
    assert [] + [scan] == [scan];
    ThreeMoves(s, [scan], Act(p, x), Act(p, x), Act(t, x));
    assert [scan] + [Act(p, x), Act(p, x), Act(t, x)] == LateDown(s, u, t, p, now, clock, others, x);
    ScanTakesDown(s, u, t, p, now, clock, others);
    PauseFreezes(s1, u, p, x);
    assert [paused] == [paused] + [];
    WriteLands(s2, p, paused, [], x);
    WriteLands(s3, t, down, others, x);
    LaterWriteWins(s.books.db, paused, down);
  }

  lemma LaterWriteWins(db: Db, first: UptimeRow, second: UptimeRow)
    requires first.id == second.id && first.id in db.uptimes
    ensures var db' := UpdateUptime(UpdateUptime(db, first), second);
            first.id in db'.uptimes && db'.uptimes[first.id] == Overwritten(db.uptimes[first.id], second)
  {
  }

  lemma ThreeMoves(s: Server, moves: seq<Move>, a: Move, b: Move, c: Move)
    ensures var s0 := After(s, moves);
            var s1 := Next(s0, a);
            var s2 := Next(s1, b);
            && After(s, moves + [a, b, c]) == Next(s2, c)
            && (AllAllowed(s, moves + [a, b, c]) <==>
                AllAllowed(s, moves) && Allowed(s0, a) && Allowed(s1, b) && Allowed(s2, c))
  {
    hide Next, Allowed, After, AllAllowed;
    OneMoreMove(s, moves, a);
    OneMoreMove(s, moves + [a], b);
    OneMoreMove(s, moves + [a] + [b], c);
    assert moves + [a] + [b] + [c] == moves + [a, b, c];
  }

  // ----- Two token regenerations -----

  /** Two requests of the same user are about to store new tokens. */
  predicate TwoRegenerations(s: Server, u: ID, p: ID, q: ID, a: string, b: string) {
    && u in s.mem.users && u in s.books.db.users && p != q && a != b
    && p in s.tasks && s.tasks[p] == Serving(u, AskToken) && q in s.tasks && s.tasks[q] == Serving(u, AskToken)
    && s.mem.users[u].user.accessToken !in {a, b} && a !in s.issued && b !in s.issued
  }

  function Crossing(p: ID, q: ID, x: Env, y: Env): seq<Move> {
    [Act(p, x), Act(q, y), Act(q, y), Act(p, x), Act(p, x), Act(q, y)]
  }

  lemma TokenStored(s: Server, u: ID, p: ID, x: Env)
    requires p in s.tasks && s.tasks[p] == Serving(u, AskToken) && !x.fails && u in s.books.db.users
             && x.token !in s.issued
    ensures var s' := Next(s, Act(p, x));
            && s'.issued == s.issued[x.token := u]
            && Allowed(s, Act(p, x)) && s'.mem == s.mem && s'.tasks == s.tasks[p := Renaming(u, x.token)]
            && u in s'.books.db.users && s'.books.db.users[u].accessToken == x.token
  {
    TokenTransaction(s.books.db, s.mem, u, x);
    hide Perform;
    assert NewTokens(Ledger.NewToken(u, x.token)) == map[x.token := u];
  }

  lemma TokenTransaction(db: Db, m: Mem, u: ID, x: Env)
    requires !x.fails
    ensures Perform(db, m, Serving(u, AskToken), x)
         == Effect(m, Some(Ledger.NewToken(u, x.token)), Some(Renaming(u, x.token)))
  {
    hide Creating, Following;
  }

  lemma UserRenamed(s: Server, u: ID, p: ID, token: string, x: Env)
    requires p in s.tasks && s.tasks[p] == Renaming(u, token) && u in s.mem.users
    ensures var s' := Next(s, Act(p, x));
            && Allowed(s, Act(p, x)) && s'.books == s.books && s'.mem.tokens == s.mem.tokens
            && s'.tasks == s.tasks[p := Swapping(u, s.mem.users[u].user.accessToken, token)]
            && u in s'.mem.users && s'.mem.users[u].user.accessToken == token
  {
    hide Creating, Entering;
  }

  lemma TokensSwapped(s: Server, u: ID, p: ID, was: string, token: string, x: Env)
    requires p in s.tasks && s.tasks[p] == Swapping(u, was, token)
    ensures var s' := Next(s, Act(p, x));
            && Allowed(s, Act(p, x)) && s'.books == s.books && s'.mem.users == s.mem.users
            && s'.mem.tokens == (s.mem.tokens - {was})[token := u] && s'.tasks == s.tasks - {p}
  {
    hide Creating, Entering;
  }

  /** The six moves one by one. */
  lemma CrossingMoves(s: Server, p: ID, q: ID, x: Env, y: Env)
    ensures var s1 := Next(s, Act(p, x));
            var s2 := Next(s1, Act(q, y));
            var s3 := Next(s2, Act(q, y));
            var s4 := Next(s3, Act(p, x));
            var s5 := Next(s4, Act(p, x));
            && After(s, Crossing(p, q, x, y)) == Next(s5, Act(q, y))
            && (AllAllowed(s, Crossing(p, q, x, y)) <==>
                && Allowed(s, Act(p, x)) && Allowed(s1, Act(q, y)) && Allowed(s2, Act(q, y)) && Allowed(s3, Act(p, x))
                && Allowed(s4, Act(p, x)) && Allowed(s5, Act(q, y)))
  {
    hide Next, Allowed, After, AllAllowed;
    NoMoves(s);
    ThreeMoves(s, [], Act(p, x), Act(q, y), Act(q, y));
    assert [] + [Act(p, x), Act(q, y), Act(q, y)] == [Act(p, x), Act(q, y), Act(q, y)];
    ThreeMoves(s, [Act(p, x), Act(q, y), Act(q, y)], Act(p, x), Act(p, x), Act(q, y));
    assert [Act(p, x), Act(q, y), Act(q, y)] + [Act(p, x), Act(p, x), Act(q, y)] == Crossing(p, q, x, y);
  }

  /** From every such state the two can cross, so that table and map keep different tokens for the user and the
      replaced one goes on to be accepted. */
  lemma CrossingRegenerationsDisagree(s: Server, u: ID, p: ID, q: ID, x: Env, y: Env)
    requires TwoRegenerations(s, u, p, q, x.token, y.token) && !x.fails && !y.fails
    ensures var s' := After(s, Crossing(p, q, x, y));
            && AllAllowed(s, Crossing(p, q, x, y))
            && u in s'.books.db.users && s'.books.db.users[u].accessToken == y.token
            && u in s'.mem.users && s'.mem.users[u].user.accessToken == x.token
            && Caller(s'.mem, x.token) == Some(u) && Caller(s'.mem, y.token) == Some(u)
            && s'.tasks == s.tasks - {p, q}
  {
    hide Next, Allowed, After, AllAllowed, Crossing;
    var s1 := Next(s, Act(p, x));
    var s2 := Next(s1, Act(q, y));
    CrossingMoves(s, p, q, x, y);
    TokenStored(s, u, p, x);
    TokenStored(s1, u, q, y);
    CrossedRenaming(s2, u, p, q, x, y);
    assert s2.tasks - {p, q} == s.tasks - {p, q};
  }

  /** With both tokens stored, the map takes them the other way round. */
  lemma CrossedRenaming(s: Server, u: ID, p: ID, q: ID, x: Env, y: Env)
    requires p != q && p in s.tasks && s.tasks[p] == Renaming(u, x.token) && q in s.tasks
             && s.tasks[q] == Renaming(u, y.token)
    requires u in s.mem.users && x.token != y.token && s.mem.users[u].user.accessToken !in {x.token, y.token}
    ensures var s1 := Next(s, Act(q, y));
            var s2 := Next(s1, Act(p, x));
            var s3 := Next(s2, Act(p, x));
            var s' := Next(s3, Act(q, y));
            && Allowed(s, Act(q, y)) && Allowed(s1, Act(p, x)) && Allowed(s2, Act(p, x)) && Allowed(s3, Act(q, y))
            && s'.books == s.books && u in s'.mem.users && s'.mem.users[u].user.accessToken == x.token
            && Caller(s'.mem, x.token) == Some(u) && Caller(s'.mem, y.token) == Some(u)
            && s'.tasks == s.tasks - {p, q}
  {
    hide Next, Allowed;
    var s1 := Next(s, Act(q, y));
    var s2 := Next(s1, Act(p, x));
    var s3 := Next(s2, Act(p, x));
    UserRenamed(s, u, q, y.token, y);
    UserRenamed(s1, u, p, x.token, x);
    TokensSwapped(s2, u, p, y.token, x.token, x);
    TokensSwapped(s3, u, q, s.mem.users[u].user.accessToken, y.token, y);
  }

  // ----- Two settings updates -----

  /** Two accepted requests of the same user are about to store different delays. */
  predicate TwoUpdates(s: Server, u: ID, p: ID, q: ID, a: UpdateSettings, b: UpdateSettings) {
    && u in s.mem.users && u in s.books.db.users && ValidSettings(s.books.db.users[u]) && p != q
    && p in s.tasks && s.tasks[p] == Serving(u, AskSettings(a)) && q in s.tasks
       && s.tasks[q] == Serving(u, AskSettings(b))
    && Rejection(a).None? && Rejection(b).None? && a.upDelay.Some? && b.upDelay.Some? && a.upDelay != b.upDelay
  }

  function CrossingUpdates(p: ID, q: ID, x: Env): seq<Move> {
    [Act(p, x), Act(q, x), Act(q, x), Act(p, x)]
  }

  lemma UpdateStored(s: Server, u: ID, p: ID, req: UpdateSettings, x: Env)
    requires p in s.tasks && s.tasks[p] == Serving(u, AskSettings(req)) && !x.fails && Rejection(req).None?
    requires u in s.books.db.users && ValidSettings(s.books.db.users[u])
    ensures var s' := Next(s, Act(p, x));
            && Allowed(s, Act(p, x)) && s'.mem == s.mem && s'.tasks == s.tasks[p := Adopting(u, req)]
            && u in s'.books.db.users && ValidSettings(s'.books.db.users[u])
            && (req.upDelay.Some? ==> s'.books.db.users[u].upDelay == req.upDelay.value)
  {
    hide Creating, Following, Rejection, ValidSettings;
    History.AcceptedKeepsValid(s.books.db.users[u], req);
    CanBeStored(s.books.db, u, req);
    var f := Perform(s.books.db, s.mem, s.tasks[p], x);
    assert f == Effect(s.mem, Some(Ledger.NewSettings(u, req)), Some(Adopting(u, req)));
    hide Perform;
  }

  lemma CanBeStored(db: Db, u: ID, req: UpdateSettings)
    requires u in db.users && ValidSettings(SettingsInTable(db.users[u], req))
    ensures UpdateSettingsRow(db, u, req) == Ok(db.(users := db.users[u := SettingsInTable(db.users[u], req)]))
  {
  }

  lemma UpdateAdopted(s: Server, u: ID, p: ID, req: UpdateSettings, x: Env)
    requires p in s.tasks && s.tasks[p] == Adopting(u, req) && Rejection(req).None? && u in s.mem.users
    ensures var s' := Next(s, Act(p, x));
            && Allowed(s, Act(p, x)) && s'.books == s.books && s'.tasks == s.tasks - {p} && u in s'.mem.users
            && (req.upDelay.Some? ==> s'.mem.users[u].user.upDelay == req.upDelay.value)
  {
    hide Creating, Entering, Rejection;
  }

  /** From every such state the two can cross: commit, commit, adopt, adopt in the other order. Nothing of them is left
      under way, and table and map keep different delays. */
  lemma CrossingUpdatesDisagree(s: Server, u: ID, p: ID, q: ID, a: UpdateSettings, b: UpdateSettings, x: Env)
    requires TwoUpdates(s, u, p, q, a, b) && !x.fails
    ensures var moves := CrossingUpdates(p, q, x);
            var s' := After(s, moves);
            && AllAllowed(s, moves) && s'.tasks == s.tasks - {p, q}
            && u in s'.books.db.users && s'.books.db.users[u].upDelay == b.upDelay.value
            && u in s'.mem.users && s'.mem.users[u].user.upDelay == a.upDelay.value
  {
    hide Next, Allowed, After, AllAllowed, ValidSettings, Rejection;
    var s1 := Next(s, Act(p, x));
    var s2 := Next(s1, Act(q, x));
    var s3 := Next(s2, Act(q, x));
    NoMoves(s);
    OneMoreMove(s, [], Act(p, x));
    assert [] + [Act(p, x)] == [Act(p, x)];
    ThreeMoves(s, [Act(p, x)], Act(q, x), Act(q, x), Act(p, x));
    assert [Act(p, x)] + [Act(q, x), Act(q, x), Act(p, x)] == CrossingUpdates(p, q, x);
    UpdateStored(s, u, p, a, x);
    UpdateStored(s1, u, q, b, x);
    UpdateAdopted(s2, u, q, b, x);
    UpdateAdopted(s3, u, p, a, x);
    assert s.tasks[p := Adopting(u, a)][q := Adopting(u, b)] - {q} - {p} == s.tasks - {p, q};
  }
}
