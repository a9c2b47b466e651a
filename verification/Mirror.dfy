/** The users map of the interleaving server is the users map of the fleet: each step of a request acts on it as one
    event there, or not at all, so the laws of devices and notifications hold between any two restarts. */
module Mirror {
  import opened Base
  import opened Uptime
  import opened Models
  import opened Device
  import opened DeviceRuns
  import opened Memory
  import opened Tables
  import opened Registry
  import opened Concurrent
  import F = Fleet
  import History

  /** The event that a step of a request is for the users map, if any. */
  function EventOfTask(task: Task, x: Env): Option<F.FleetEvent> {
    match task
    case AddingUser(st, _) => Some(F.Join(st.user.id, st, x.at))
    case DroppingUser(target, _) => Some(F.Leave(target, x.at))
    case Serving(uid, AskPing) => Some(F.On(uid, Event.Ping(x.now, x.at)))
    case Serving(uid, AskPause) => Some(F.On(uid, Event.Pause(x.at)))
    case Serving(uid, AskUnpause) => Some(F.On(uid, Event.Unpause(x.at)))
    case Adopting(uid, req) => Some(F.On(uid, Event.Settings(req, x.at)))
    case Renaming(uid, token) => Some(F.On(uid, Event.Edit(EditToken(token), x.at)))
    case Speaking(uid, code) => Some(F.On(uid, Event.Edit(EditLanguage(code), x.at)))
    case Enabled(uid, on) => Some(F.On(uid, Event.Edit(EditEnabled(on), x.at)))
    case Counting(uid, delta) => Some(F.On(uid, Event.Edit(EditUsed(delta), x.at)))
    case _ => None
  }

  /** `f` is what the move is for the users map; a scan may visit it in any order. */
  ghost predicate Matches(s: Server, e: Move, f: F.FleetEvent) {
    match e
    case Act(t, x) => t in s.tasks && EventOfTask(s.tasks[t], x) == Some(f)
    case ScanAll(_, now, clock, _) => f.ScanAll? && f.now == now && f.clock == clock && F.Visits(s.mem.users, f)
    case _ => false
  }

  /** The move does not concern the users map. */
  predicate Silent(s: Server, e: Move) {
    match e
    case Act(t, x) => t in s.tasks ==> EventOfTask(s.tasks[t], x) == None
    case ScanAll(_, _, _, _) => false
    case _ => true
  }

  lemma CreatingMirrored(db: Db, m: Mem, task: Task, x: Env)
    requires CreatesUser(task)
    ensures Perform(db, m, task, x).mem.users ==
            match EventOfTask(task, x) case None => m.users case Some(f) => F.Apply(m.users, f)
  {
    hide Entering, Following, CreateState, Prepared;
  }

  lemma EnteringMirrored(db: Db, m: Mem, task: Task, x: Env)
    requires EntersGuards(task)
    ensures Perform(db, m, task, x).mem.users ==
            match EventOfTask(task, x) case None => m.users case Some(f) => F.Apply(m.users, f)
  {
    hide Creating, Following, DeleteInvite, UpdateSettingsRow, UnusedOf, Step, Refused;
    if task.Serving? && task.uid in m.users && task.ask.AskPause? && Refused(m.users[task.uid], Event.Pause(x.at)) {
      RefusedChangesNothing(m.users[task.uid], Event.Pause(x.at));
      assert m.users[task.uid := m.users[task.uid]] == m.users;
    }
    if task.Serving? && task.uid in m.users && task.ask.AskUnpause? && Refused(m.users[task.uid], Event.Unpause(x.at)) {
      RefusedChangesNothing(m.users[task.uid], Event.Unpause(x.at));
      assert m.users[task.uid := m.users[task.uid]] == m.users;
    }
    PingIsNotRefused(x);
  }

  lemma RefusedChangesNothing(d: UserState, e: Event)
    requires Refused(d, e)
    ensures Step(d, e) == d
  {
  }

  lemma PingIsNotRefused(x: Env)
    ensures forall d :: !Refused(d, Event.Ping(x.now, x.at))
  {
  }

  lemma FollowingMirrored(db: Db, m: Mem, task: Task, x: Env)
    requires !CreatesUser(task) && !EntersGuards(task)
    ensures Perform(db, m, task, x).mem.users ==
            match EventOfTask(task, x) case None => m.users case Some(f) => F.Apply(m.users, f)
  {
    hide Creating, Entering, DeleteUser, CreateInvite, HasInvite, Rejection, SettingsInMemory;
    if task.DroppingUser? && task.target !in m.users {
      assert m.users - {task.target} == m.users;
    }
  }

  /** Every move but a restart is one event of the fleet, or none. */
  lemma MoveIsOneEvent(s: Server, e: Move)
    requires Allowed(s, e) && !e.Crash?
    ensures Silent(s, e) ==> Next(s, e).mem.users == s.mem.users
    ensures forall f: F.FleetEvent :: Matches(s, e, f) ==> Next(s, e).mem.users == F.Apply(s.mem.users, f)
  {
    if e.Act? {
      var task := s.tasks[e.t];
      if CreatesUser(task) {
        CreatingMirrored(s.books.db, s.mem, task, e.x);
      } else if EntersGuards(task) {
        EnteringMirrored(s.books.db, s.mem, task, e.x);
      } else {
        FollowingMirrored(s.books.db, s.mem, task, e.x);
      }
      hide Perform, F.Apply;
    }
  }

  // ----- Runs -----

  predicate NoRestart(es: seq<Move>) {
    forall i | 0 <= i < |es| :: !es[i].Crash?
  }

  /** `fs` is what the run is for the users map, in the order of the critical sections. */
  ghost predicate Mirrors(s: Server, es: seq<Move>, fs: seq<F.FleetEvent>) {
    if es == [] then fs == []
    else
      var before, e := es[..|es| - 1], es[|es| - 1];
      if Silent(After(s, before), e) then Mirrors(s, before, fs)
      else fs != [] && Mirrors(s, before, fs[..|fs| - 1]) && Matches(After(s, before), e, fs[|fs| - 1])
  }

  lemma {:induction false} RunIsMirrored(s: Server, es: seq<Move>, fs: seq<F.FleetEvent>)
    requires AllAllowed(s, es) && NoRestart(es) && Mirrors(s, es, fs)
    ensures After(s, es).mem.users == F.RunAll(s.mem.users, fs) && F.AllVisits(s.mem.users, fs)
  {
    hide Next, Allowed, Silent, F.Apply, F.Visits, Matches;
    if es != [] {
      var before, e := es[..|es| - 1], es[|es| - 1];
      assert forall i | 0 <= i < |before| :: before[i] == es[i];
      MoveIsOneEvent(After(s, before), e);
      if Silent(After(s, before), e) {
        RunIsMirrored(s, before, fs);
      } else {
        RunIsMirrored(s, before, fs[..|fs| - 1]);
        MatchVisits(After(s, before), e, fs[|fs| - 1]);
      }
    }
  }

  lemma MatchVisits(s: Server, e: Move, f: F.FleetEvent)
    requires Matches(s, e, f)
    ensures F.Visits(s.mem.users, f)
  {
  }

  lemma {:induction false} SomeOrder(ids: set<ID>) returns (order: seq<ID>)
    ensures forall i, j | 0 <= i < j < |order| :: order[i] != order[j]
    ensures forall id :: id in order <==> id in ids
  {
    if ids == {} {
      order := [];
    } else {
      var id :| id in ids;
      var rest := SomeOrder(ids - {id});
      order := rest + [id];
    }
  }

  /** Every run has such a mirror. */
  lemma {:induction false} EveryRunIsMirrored(s: Server, es: seq<Move>) returns (fs: seq<F.FleetEvent>)
    requires AllAllowed(s, es) && NoRestart(es)
    ensures Mirrors(s, es, fs)
  {
    hide Next, F.Visits, F.Apply;
    if es == [] {
      fs := [];
    } else {
      var before, e := es[..|es| - 1], es[|es| - 1];
      assert forall i | 0 <= i < |before| :: before[i] == es[i];
      fs := EveryRunIsMirrored(s, before);
      if !Silent(After(s, before), e) {
        var f := SomeMatch(After(s, before), e);
        assert (fs + [f])[..|fs|] == fs;
        fs := fs + [f];
      }
    }
  }

  lemma SomeMatch(s: Server, e: Move) returns (f: F.FleetEvent)
    requires !Silent(s, e)
    ensures Matches(s, e, f)
  {
    match e
    case Act(t, x) => f := EventOfTask(s.tasks[t], x).value;
    case ScanAll(_, now, clock, _) =>
      var order := SomeOrder(s.mem.users.Keys);
      f := F.ScanAll(now, clock, order, now);
  }

  // ----- The results -----

  lemma ReachedIsSound(prior: seq<Move>, u: ID, start: Time)
    requires AllAllowed(COLD, prior)
    requires var users := After(COLD, prior).mem.users;
             u in users && users[u].uptime.touchedAt <= start && users[u].uptime.changedAt <= start
    ensures Sound(After(COLD, prior).mem.users[u], start)
  {
    History.PersistedRowsAreHistory(prior);
    History.SettingsStayValid(prior);
  }

  /** Between two restarts, under any interleaving of requests, scans and failures, with the clock readings in the order
      of the critical sections: for every user that stays, the dispatch calls made for them in the server's log keep
      the grammar and the balance of the notifications. */
  lemma {:induction false} NotificationsUnderInterleaving(prior: seq<Move>, es: seq<Move>, fs: seq<F.FleetEvent>,
                                                          start: Time, u: ID)
    requires AllAllowed(COLD, prior) && AllAllowed(After(COLD, prior), es) && NoRestart(es)
    requires Mirrors(After(COLD, prior), es, fs) && F.InOrder(start, fs) && F.Stays(u, fs)
    requires var users := After(COLD, prior).mem.users;
             u in users && users[u].uptime.touchedAt <= start && users[u].uptime.changedAt <= start
    ensures var users, users' := After(COLD, prior).mem.users, After(After(COLD, prior), es).mem.users;
            var log := CallsFor(F.FleetLog(users, fs), u);
            && u in users' && Grammar(users[u], log)
            && CountCalls(log, Down) - CountCalls(log, Up) - SuppressedRestores(users[u], F.Seen(u, fs))
               == Downness(users'[u]) - Downness(users[u])
  {
    hide After, AllAllowed, Mirrors, F.InOrder, F.Stays, Sound, F.RunAll, F.FleetLog, CallsFor, Grammar, F.AllVisits;
    var s := After(COLD, prior);
    ReachedIsSound(prior, u, start);
    RunIsMirrored(s, es, fs);
    F.FleetGrammar(s.mem.users, start, fs, u);
  }

  /** And a device that pings within its delay is never declared down, nor its user told so. */
  lemma {:induction false} NoFalseAlarmUnderInterleaving(prior: seq<Move>, es: seq<Move>, fs: seq<F.FleetEvent>,
                                                         start: Time, u: ID, patience: int)
    requires AllAllowed(COLD, prior) && AllAllowed(After(COLD, prior), es) && NoRestart(es)
    requires Mirrors(After(COLD, prior), es, fs) && F.InOrder(start, fs) && F.Stays(u, fs)
    requires var users := After(COLD, prior).mem.users;
             && u in users && users[u].uptime.touchedAt <= start && users[u].uptime.changedAt <= start
             && Effective(users[u].uptime) == Up && users[u].user.upDelay * SECOND >= patience
             && PingedWithin(Some(users[u].uptime.touchedAt), F.Seen(u, fs), patience)
    requires DelayStaysAbove(F.Seen(u, fs), patience)
    ensures var users, users' := After(COLD, prior).mem.users, After(After(COLD, prior), es).mem.users;
            && u in users' && Effective(users'[u].uptime) == Up
            && forall call | call in CallsFor(F.FleetLog(users, fs), u) :: call.status != Down
  {
    hide After, AllAllowed, Mirrors, F.InOrder, F.Stays, Sound, F.RunAll, F.FleetLog, CallsFor, F.AllVisits,
      PingedWithin, DelayStaysAbove;
    var s := After(COLD, prior);
    ReachedIsSound(prior, u, start);
    RunIsMirrored(s, es, fs);
    F.RegularDeviceStaysUpInFleet(s.mem.users, start, fs, u, patience);
  }
}
