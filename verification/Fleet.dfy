/** All devices together: critical sections of different users and passes of the loop, in any order.

    A run over the whole map is, for each device that stays in it, a run of that device alone, both in the states it
    goes through and in the dispatch calls made for it, so the laws of DeviceRuns hold under every interleaving. The
    loop's own choice of sleep is judged here too. */
module Fleet {
  import opened Base
  import opened Uptime
  import opened Models
  import opened Notifications
  import opened Device
  import opened DeviceRuns
  import opened Memory
  import Runs

  datatype FleetEvent =
    | On(id: ID, e: Event)                           // one user's critical section
    | ScanAll(now: Time, clock: ID -> Time, order: seq<ID>, end: Time)    // one pass of the loop, in this order
    | Join(id: ID, joined: UserState, at: Time)      // add_state
    | Leave(id: ID, at: Time)                        // remove_user

  function Apply(users: map<ID, UserState>, f: FleetEvent): map<ID, UserState> {
    match f
    case On(id, e) => if id in users then users[id := Step(users[id], e)] else users
    case ScanAll(now, clock, _, _) => Scanned(users, now, clock)
    case Join(id, joined, _) => users[id := joined]
    case Leave(id, _) => users - {id}
  }

  /** The dispatch calls of one pass. */
  function ScanLog(users: map<ID, UserState>, now: Time, clock: ID -> Time, order: seq<ID>): seq<(ID, Dispatch)> {
    if order == [] then []
    else
      var id := order[|order| - 1];
      ScanLog(users, now, clock, order[..|order| - 1])
      + if id in users then Tagged(id, Calls(users[id], Scan(now, clock(id)))) else []
  }

  function FleetCalls(users: map<ID, UserState>, f: FleetEvent): seq<(ID, Dispatch)> {
    match f
    case On(id, e) => if id in users then Tagged(id, Calls(users[id], e)) else []
    case ScanAll(now, clock, order, _) => ScanLog(users, now, clock, order)
    case _ => []
  }

  function RunAll(users: map<ID, UserState>, fs: seq<FleetEvent>): map<ID, UserState> {
    Runs.Fold(Apply, users, fs)
  }

  /** Every dispatch call of the server, in order. */
  function FleetLog(users: map<ID, UserState>, fs: seq<FleetEvent>): seq<(ID, Dispatch)> {
    Runs.Output(Apply, FleetCalls, users, fs)
  }

  /** Each pass visits every entry once. */
  ghost predicate Visits(users: map<ID, UserState>, f: FleetEvent) {
    f.ScanAll? ==>
      && (forall i, j | 0 <= i < j < |f.order| :: f.order[i] != f.order[j])
      && (forall id :: id in f.order <==> id in users)
  }

  ghost predicate AllVisits(users: map<ID, UserState>, fs: seq<FleetEvent>) {
    fs == [] || (AllVisits(users, fs[..|fs| - 1]) && Visits(RunAll(users, fs[..|fs| - 1]), fs[|fs| - 1]))
  }

  function Begin(f: FleetEvent): Time {
    match f
    case On(_, e) => Start(e)
    case ScanAll(now, _, _, _) => now
    case Join(_, _, at) => at
    case Leave(_, at) => at
  }

  function Finish(f: FleetEvent): Time {
    match f
    case On(_, e) => e.at
    case ScanAll(_, _, _, end) => end
    case Join(_, _, at) => at
    case Leave(_, at) => at
  }

  function FleetClock(start: Time, fs: seq<FleetEvent>): Time {
    if fs == [] then start else Finish(fs[|fs| - 1])
  }

  /** Every section holds the users lock, so all readings of one section come after those of the one before. */
  ghost predicate InOrder(start: Time, fs: seq<FleetEvent>) {
    fs == [] ||
    (var before, f := fs[..|fs| - 1], fs[|fs| - 1];
     && InOrder(start, before)
     && FleetClock(start, before) <= Begin(f) <= Finish(f)
     && (f.ScanAll? ==> forall id :: f.now <= f.clock(id) <= f.end))
  }

  predicate Stays(id: ID, fs: seq<FleetEvent>) {
    forall i | 0 <= i < |fs| :: !((fs[i].Join? || fs[i].Leave?) && fs[i].id == id)
  }

  /** What one device sees of an event. */
  function SeenOf(id: ID, f: FleetEvent): seq<Event> {
    match f
    case On(k, e) => if k == id then [e] else []
    case ScanAll(now, clock, _, _) => [Scan(now, clock(id))]
    case _ => []
  }

  /** What one device sees of the run. */
  function Seen(id: ID, fs: seq<FleetEvent>): seq<Event> {
    if fs == [] then [] else Seen(id, fs[..|fs| - 1]) + SeenOf(id, fs[|fs| - 1])
  }

  /** One event of the server is one event of the device, or none. */
  lemma OneEvent(users: map<ID, UserState>, f: FleetEvent, id: ID)
    requires id in users && !((f.Join? || f.Leave?) && f.id == id)
    ensures |SeenOf(id, f)| <= 1
    ensures id in Apply(users, f)
    ensures Apply(users, f)[id] == if SeenOf(id, f) == [] then users[id] else Step(users[id], SeenOf(id, f)[0])
  {
  }

  lemma OneEventInOrder(f: FleetEvent, id: ID)
    requires Begin(f) <= Finish(f) && (f.ScanAll? ==> f.now <= f.clock(id) <= f.end)
    ensures |SeenOf(id, f)| <= 1
    ensures SeenOf(id, f) != [] ==> Begin(f) <= Start(SeenOf(id, f)[0]) <= SeenOf(id, f)[0].at <= Finish(f)
  {
  }

  /** The last event of a run. */
  lemma LastInOrder(start: Time, fs: seq<FleetEvent>, id: ID)
    requires fs != [] && InOrder(start, fs)
    ensures var before, f := fs[..|fs| - 1], fs[|fs| - 1];
            && InOrder(start, before) && FleetClock(start, before) <= Begin(f) <= Finish(f) == FleetClock(start, fs)
            && (f.ScanAll? ==> f.now <= f.clock(id) <= f.end)
            && fs == before + [f] && Seen(id, fs) == Seen(id, before) + SeenOf(id, f)
  {
  }

  lemma StillStays(id: ID, fs: seq<FleetEvent>)
    requires fs != [] && Stays(id, fs)
    ensures var f := fs[|fs| - 1]; Stays(id, fs[..|fs| - 1]) && !((f.Join? || f.Leave?) && f.id == id)
  {
    assert forall i | 0 <= i < |fs| - 1 :: fs[..|fs| - 1][i] == fs[i];
  }

  lemma NothingSeen(users: map<ID, UserState>, start: Time, id: ID)
    requires id in users
    ensures RunAll(users, []) == users && Seen(id, []) == [] && Run(users[id], []) == users[id]
            && Log(users[id], []) == []
    ensures FleetLog(users, []) == [] && Ordered(start, []) && Clock(start, []) == start == FleetClock(start, [])
  {
  }

  /** Every device of the map goes through the states it would go through alone. */
  lemma {:induction false} DevicesAreIndependent(users: map<ID, UserState>, start: Time, fs: seq<FleetEvent>, id: ID)
    requires id in users && Stays(id, fs) && InOrder(start, fs)
    ensures id in RunAll(users, fs) && RunAll(users, fs)[id] == Run(users[id], Seen(id, fs))
    ensures Ordered(start, Seen(id, fs)) && Clock(start, Seen(id, fs)) <= FleetClock(start, fs)
  {
    hide Step, Apply, SeenOf, Begin, Finish, InOrder, FleetClock, Ordered, Clock, Seen, RunAll, Run, Stays;
    if fs == [] {
      NothingSeen(users, start, id);
    } else {
      var before, f := fs[..|fs| - 1], fs[|fs| - 1];
      LastInOrder(start, fs, id);
      StillStays(id, fs);
      DevicesAreIndependent(users, start, before, id);
      OneEvent(RunAll(users, before), f, id);
      OneEventInOrder(f, id);
      RunAllNext(users, before, f);
      MoreSeen(users[id], start, Seen(id, before), SeenOf(id, f));
    }
  }

  lemma RunAllNext(users: map<ID, UserState>, before: seq<FleetEvent>, f: FleetEvent)
    ensures RunAll(users, before + [f]) == Apply(RunAll(users, before), f)
    ensures FleetLog(users, before + [f]) == FleetLog(users, before) + FleetCalls(RunAll(users, before), f)
  {
    assert (before + [f])[..|before|] == before;
  }

  lemma MoreSeen(d: UserState, start: Time, seen: seq<Event>, more: seq<Event>)
    requires Ordered(start, seen) && |more| <= 1
    requires more != [] ==> Clock(start, seen) <= Start(more[0]) <= more[0].at
    ensures Ordered(start, seen + more)
    ensures Clock(start, seen + more) == if more == [] then Clock(start, seen) else more[0].at
    ensures Run(d, seen + more) == if more == [] then Run(d, seen) else Step(Run(d, seen), more[0])
    ensures Log(d, seen + more) == Log(d, seen) + if more == [] then [] else Calls(Run(d, seen), more[0])
  {
    if more == [] {
      assert seen + more == seen;
    } else {
      assert (seen + more)[..|seen|] == seen;
    }
  }

  // ----- The log -----

  lemma CallsAreFew(d: UserState, e: Event)
    ensures |Calls(d, e)| <= 1
  {
  }

  /** One pass calls for each entry what it would call for it alone. */
  lemma {:induction false} ScanCallsFor(users: map<ID, UserState>, now: Time, clock: ID -> Time, order: seq<ID>, id: ID)
    requires forall i, j | 0 <= i < j < |order| :: order[i] != order[j]
    ensures CallsFor(ScanLog(users, now, clock, order), id)
         == if id in order && id in users then Calls(users[id], Scan(now, clock(id))) else []
  {
    hide Calls;
    if order != [] {
      var before, last := order[..|order| - 1], order[|order| - 1];
      ScanCallsFor(users, now, clock, before, id);
      assert order == before + [last];
      var log := ScanLog(users, now, clock, before);
      assert log + [] == log;
      if last in users {
        CallsAreFew(users[last], Scan(now, clock(last)));
        CallsForTagged(log, last, Calls(users[last], Scan(now, clock(last))));
      }
    }
  }

  lemma NoCalls(id: ID)
    ensures CallsFor([], id) == []
  {
  }

  lemma OneEventsCalls(users: map<ID, UserState>, f: FleetEvent, id: ID)
    requires id in users && Visits(users, f)
    ensures CallsFor(FleetCalls(users, f), id) == if SeenOf(id, f) == [] then [] else Calls(users[id], SeenOf(id, f)[0])
  {
    hide Calls;
    match f
    case On(k, e) =>
      if k in users {
        CallsAreFew(users[k], e);
        CallsForTagged([], k, Calls(users[k], e));
        assert [] + Tagged(k, Calls(users[k], e)) == Tagged(k, Calls(users[k], e));
      }
    case ScanAll(now, clock, order, _) => ScanCallsFor(users, now, clock, order, id);
    case _ =>
  }

  /** The calls made for a device are those its own run makes, in the same order. */
  lemma {:induction false} LogsAreIndependent(users: map<ID, UserState>, start: Time, fs: seq<FleetEvent>, id: ID)
    requires id in users && Stays(id, fs) && InOrder(start, fs) && AllVisits(users, fs)
    ensures CallsFor(FleetLog(users, fs), id) == Log(users[id], Seen(id, fs))
  {
    hide Calls, Step, Apply, SeenOf, FleetCalls, Begin, Finish, Visits, CallsFor, InOrder, FleetClock, Ordered, Clock,
      Seen, RunAll, Run, Log, FleetLog, Stays;
    NoCalls(id);
    if fs == [] {
      NothingSeen(users, start, id);
    } else {
      var before, f := fs[..|fs| - 1], fs[|fs| - 1];
      LastInOrder(start, fs, id);
      StillStays(id, fs);
      LogsAreIndependent(users, start, before, id);
      DevicesAreIndependent(users, start, before, id);
      OneEventsCalls(RunAll(users, before), f, id);
      OneEventInOrder(f, id);
      RunAllNext(users, before, f);
      CallsForConcat(FleetLog(users, before), FleetCalls(RunAll(users, before), f), id);
      MoreSeen(users[id], start, Seen(id, before), SeenOf(id, f));
    }
  }

  /** The grammar and the balance of the notifications hold in the server's whole log, for every user in it. */
  lemma FleetGrammar(users: map<ID, UserState>, start: Time, fs: seq<FleetEvent>, id: ID)
    requires id in users && Stays(id, fs) && InOrder(start, fs) && AllVisits(users, fs) && Sound(users[id], start)
    ensures id in RunAll(users, fs)
    ensures var d, d', log := users[id], RunAll(users, fs)[id], CallsFor(FleetLog(users, fs), id);
            && Grammar(d, log)
            && CountCalls(log, Down) - CountCalls(log, Up) - SuppressedRestores(d, Seen(id, fs)) ==
               Downness(d') - Downness(d)
  {
    DevicesAreIndependent(users, start, fs, id);
    LogsAreIndependent(users, start, fs, id);
    NotificationGrammar(users[id], start, Seen(id, fs));
    NotificationBalance(users[id], start, Seen(id, fs));
  }

  function Joining(before: seq<FleetEvent>, joined: UserState, at: Time, after: seq<FleetEvent>,
                   id: ID): seq<FleetEvent> {
    before + [Join(id, joined, at)] + after
  }

  lemma JoinedAlone(users: map<ID, UserState>, before: seq<FleetEvent>, join: FleetEvent)
    requires join.Join? && join.id !in users && Stays(join.id, before) && AllVisits(users, before)
    ensures var middle := RunAll(users, before + [join]);
            join.id in middle && middle[join.id] == join.joined
    ensures CallsFor(FleetLog(users, before + [join]), join.id) == []
  {
    AbsentIsSilent(users, before, join.id);
    RunAllNext(users, before, join);
    CallsForConcat(FleetLog(users, before), [], join.id);
  }

  /** Whoever joins has no history: the calls made for them are those of their device from there on. */
  lemma NewcomerLog(users: map<ID, UserState>, start: Time, before: seq<FleetEvent>, joined: UserState, at: Time,
                    after: seq<FleetEvent>, id: ID)
    requires id !in users && Stays(id, before) && Stays(id, after)
    requires var fs := Joining(before, joined, at, after, id); InOrder(start, fs) && AllVisits(users, fs)
    ensures CallsFor(FleetLog(users, Joining(before, joined, at, after, id)), id) == Log(joined, Seen(id, after))
    ensures Ordered(at, Seen(id, after))
  {
    hide Apply, FleetCalls, Visits, InOrder, CallsFor, Begin, Finish, Seen, Log;
    var arrived := before + [Join(id, joined, at)];
    InOrderConcat(start, arrived, after);
    AllVisitsConcat(users, arrived, after);
    AllVisitsConcat(users, before, [Join(id, joined, at)]);
    JoinedAlone(users, before, Join(id, joined, at));
    JoinEnds(start, before, Join(id, joined, at));
    LogsAreIndependent(RunAll(users, arrived), at, after, id);
    DevicesAreIndependent(RunAll(users, arrived), at, after, id);
    Runs.OutputConcat(Apply, FleetCalls, users, arrived, after);
    CallsForConcat(FleetLog(users, arrived), FleetLog(RunAll(users, arrived), after), id);
  }

  /** For a newcomer's whole life in the map "connected" comes at most once and first, and every "power on" directly
      after a "power off". */
  lemma NewcomerGrammar(users: map<ID, UserState>, start: Time, before: seq<FleetEvent>, joined: UserState, at: Time,
                        after: seq<FleetEvent>, id: ID)
    requires id !in users && Stays(id, before) && Stays(id, after)
    requires var fs := Joining(before, joined, at, after, id); InOrder(start, fs) && AllVisits(users, fs)
    requires Sound(joined, at) && joined.uptime.status.Uninitialized?
    ensures var log := CallsFor(FleetLog(users, Joining(before, joined, at, after, id)), id);
            && Grammar(joined, log)
            && (forall i | 0 <= i < |log| && log[i].status.Uninitialized? :: i == 0)
            && (forall i | 0 <= i < |log| && log[i].status.Up? :: i > 0 && log[i - 1].status == Down)
  {
    NewcomerLog(users, start, before, joined, at, after, id);
    NotificationGrammar(joined, at, Seen(id, after));
    hide FleetLog, CallsFor, Log, InOrder, AllVisits, Grammar;
    FirstLife(joined, Log(joined, Seen(id, after)));
  }

  lemma FirstLife(joined: UserState, log: seq<Dispatch>)
    requires Grammar(joined, log) && joined.uptime.status.Uninitialized?
    ensures forall i | 0 <= i < |log| && log[i].status.Uninitialized? :: i == 0
    ensures forall i | 0 <= i < |log| && log[i].status.Up? :: i > 0 && log[i - 1].status == Down
  {
    assert Effective(joined.uptime) == Uninitialized;
    forall i | 0 <= i < |log| && log[i].status.Uninitialized? ensures i == 0 {
      assert Fits(joined, log, i);
    }
    forall i | 0 <= i < |log| && log[i].status.Up? ensures i > 0 && log[i - 1].status == Down {
      assert Fits(joined, log, i);
    }
  }

  lemma JoinEnds(start: Time, before: seq<FleetEvent>, join: FleetEvent)
    requires join.Join?
    ensures FleetClock(start, before + [join]) == join.at
  {
  }

  lemma {:induction false} InOrderConcat(start: Time, a: seq<FleetEvent>, b: seq<FleetEvent>)
    requires InOrder(start, a + b)
    ensures InOrder(start, a) && InOrder(FleetClock(start, a), b)
  {
    if b == [] {
      assert a + b == a;
    } else {
      var before := b[..|b| - 1];
      assert (a + b)[..|a + b| - 1] == a + before;
      InOrderConcat(start, a, before);
      assert before == [] ==> a + before == a;
    }
  }

  lemma {:induction false} AllVisitsConcat(users: map<ID, UserState>, a: seq<FleetEvent>, b: seq<FleetEvent>)
    requires AllVisits(users, a + b)
    ensures AllVisits(users, a) && AllVisits(RunAll(users, a), b)
  {
    hide Visits, Apply;
    if b == [] {
      assert a + b == a;
    } else {
      var before := b[..|b| - 1];
      assert (a + b)[..|a + b| - 1] == a + before;
      AllVisitsConcat(users, a, before);
      Runs.FoldConcat(Apply, users, a, before);
    }
  }

  /** Nothing is sent for who is not there. */
  lemma {:induction false} AbsentIsSilent(users: map<ID, UserState>, fs: seq<FleetEvent>, id: ID)
    requires id !in users && Stays(id, fs) && AllVisits(users, fs)
    ensures id !in RunAll(users, fs) && CallsFor(FleetLog(users, fs), id) == []
  {
    if fs != [] {
      var before, f := fs[..|fs| - 1], fs[|fs| - 1];
      assert forall i | 0 <= i < |before| :: before[i] == fs[i];
      AbsentIsSilent(users, before, id);
      hide Calls, Step;
      AbsentStep(RunAll(users, before), f, id);
      CallsForConcat(FleetLog(users, before), FleetCalls(RunAll(users, before), f), id);
    }
  }

  lemma AbsentStep(users: map<ID, UserState>, f: FleetEvent, id: ID)
    requires id !in users && !((f.Join? || f.Leave?) && f.id == id) && Visits(users, f)
    ensures id !in Apply(users, f) && CallsFor(FleetCalls(users, f), id) == []
  {
    hide Calls, Step;
    match f
    case On(k, e) =>
      if k in users {
        CallsAreFew(users[k], e);
        CallsForTagged([], k, Calls(users[k], e));
        assert [] + Tagged(k, Calls(users[k], e)) == Tagged(k, Calls(users[k], e));
      }
    case ScanAll(now, clock, order, _) => ScanCallsFor(users, now, clock, order, id);
    case _ =>
  }

  /** A silent device of the fleet is left alone until the first pass that catches it, which sends the one truthful
      report. */
  lemma SilentDeviceReportedInFleet(users: map<ID, UserState>, start: Time, fs: seq<FleetEvent>, id: ID, k: nat)
    requires id in users && Stays(id, fs) && InOrder(start, fs) && AllVisits(users, fs)
    requires Sound(users[id], start) && users[id].uptime.status.Up?
    requires var scans := Seen(id, fs);
             (forall e | e in scans :: e.Scan?) && |scans| == k + 1 && CaughtAt(users[id], scans, k)
    ensures var at := Seen(id, fs)[k].at;
            && id in RunAll(users, fs) && RunAll(users, fs)[id].uptime.status == Down
            && CallsFor(FleetLog(users, fs), id) == [Dispatch(Down, Some(at - users[id].uptime.changedAt))]
  {
    hide InOrder, AllVisits, Stays, Seen, RunAll, FleetLog, CallsFor, Run, Log, Ordered, CaughtAt, Sound;
    var scans := Seen(id, fs);
    DevicesAreIndependent(users, start, fs, id);
    LogsAreIndependent(users, start, fs, id);
    DetectionIsExact(users[id], start, scans, k);
    assert scans[..k + 1] == scans;
  }

  /** No false alarm for any device of the fleet: pinging within the delay keeps it out of Down, and its user from
      being told so, whatever the others do. */
  lemma RegularDeviceStaysUpInFleet(users: map<ID, UserState>, start: Time, fs: seq<FleetEvent>, id: ID, patience: int)
    requires id in users && Stays(id, fs) && InOrder(start, fs)
    requires Sound(users[id], start) && Effective(users[id].uptime) == Up && users[id].user.upDelay * SECOND >= patience
    requires PingedWithin(Some(users[id].uptime.touchedAt), Seen(id, fs), patience)
    requires DelayStaysAbove(Seen(id, fs), patience)
    ensures id in RunAll(users, fs) && Effective(RunAll(users, fs)[id].uptime) == Up
    ensures AllVisits(users, fs) ==> forall call | call in CallsFor(FleetLog(users, fs), id) :: call.status != Down
  {
    DevicesAreIndependent(users, start, fs, id);
    if AllVisits(users, fs) { LogsAreIndependent(users, start, fs, id); }
    RegularPingsNeverDown(users[id], start, Some(users[id].uptime.touchedAt), Seen(id, fs), patience);
    LastPingKnown(Some(users[id].uptime.touchedAt), Seen(id, fs));
  }

  lemma {:induction false} LastPingKnown(last: Option<Time>, es: seq<Event>)
    requires last.Some?
    ensures LastPing(last, es).Some?
  {
    if es != [] {
      LastPingKnown(last, es[..|es| - 1]);
    }
  }

  // ----- No oversleep -----

  /** Since the scan at `now` over `users`: never connected, refreshed since, or there all along with an older
      refresh. */
  ghost predicate Provenance(users: map<ID, UserState>, now: Time, id: ID, d: UserState) {
    || d.uptime.status.Uninitialized?
    || d.uptime.touchedAt >= now
    || (id in users && d.uptime.touchedAt >= users[id].uptime.touchedAt)
  }

  /** Between two scans; a new user enters as `create_user` makes it, with a clock reading from before its row was
      stored. */
  predicate BetweenScans(fs: seq<FleetEvent>) {
    forall i | 0 <= i < |fs| ::
      && !fs[i].ScanAll?
      && (fs[i].On? ==> !fs[i].e.Scan?)
      && (fs[i].Join? ==> fs[i].joined.uptime.status.Uninitialized? && ValidSettings(fs[i].joined.user)
                          && WellFormed(fs[i].joined.uptime))
  }

  lemma {:induction false} EveryoneIsAccountedFor(users: map<ID, UserState>, now: Time, fs: seq<FleetEvent>, id: ID)
    requires forall k | k in users :: ValidSettings(users[k].user)
    requires InOrder(now, fs) && BetweenScans(fs) && id in RunAll(users, fs)
    ensures Provenance(users, now, id, RunAll(users, fs)[id]) && ValidSettings(RunAll(users, fs)[id].user)
    ensures now <= FleetClock(now, fs)
  {
    if fs != [] {
      var before, f := fs[..|fs| - 1], fs[|fs| - 1];
      var prior := RunAll(users, before);
      InOrderAdvances(now, before);
      if id in prior {
        EveryoneIsAccountedFor(users, now, before, id);
      }
    }
  }

  lemma {:induction false} InOrderAdvances(start: Time, fs: seq<FleetEvent>)
    requires InOrder(start, fs)
    ensures start <= FleetClock(start, fs)
  {
    if fs != [] {
      InOrderAdvances(start, fs[..|fs| - 1]);
    }
  }

  /** The loop never sleeps past a deadline it could have foreseen: if it wakes on time, a device that is overdue
      at the wake-up was overdue at the scan before, has never connected, or had its delay lowered in between. */
  lemma NoOversleep(users: map<ID, UserState>, now: Time, sleep: int, fs: seq<FleetEvent>, id: ID)
    requires forall k | k in users :: ValidSettings(users[k].user)
    requires IsSleep(users, now, sleep)
    requires InOrder(now, fs) && BetweenScans(fs) && id in RunAll(users, fs)
    requires var d := RunAll(users, fs)[id]; d.uptime.touchedAt + d.user.upDelay * 1_000_000 < now + sleep
    ensures var d := RunAll(users, fs)[id];
            || d.uptime.status.Uninitialized?
            || (id in users && users[id].uptime.touchedAt + users[id].user.upDelay * 1_000_000 < now)
            || (id in users && d.user.upDelay < users[id].user.upDelay)
  {
    EveryoneIsAccountedFor(users, now, fs, id);
  }
}
