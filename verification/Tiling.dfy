/** Conservation of time: what the four transitions report about a device covers its whole life.

    Along any run of `touch`, `go_down`, `pause` and `unpause`, the wait before the first
    connection, the durations handed to the user ("power was on", "power was off") and the
    intervals that an unpause drops silently lie end to end, from creation to the last change. */
module Tiling {
  import opened Base
  import opened Uptime
  import Runs

  datatype Op = Touch(now: Time) | GoDown(now: Time) | Pause(now: Time) | Unpause(now: Time)

  datatype Kind = Waiting | WasOn | WasOff | Dropped

  datatype Interval = Interval(kind: Kind, from: Time, to: Time)

  function Apply(u: UptimeRow, op: Op): UptimeRow {
    match op
    case Touch(now) => Touched(u, now)
    case GoDown(now) => WentDown(u, now)
    case Pause(_) => (match PauseResult(u) case Ok(row) => row case Err(_) => u)
    case Unpause(now) => (match UnpauseResult(u, now) case Ok(row) => row case Err(_) => u)
  }

  function Run(u: UptimeRow, ops: seq<Op>): UptimeRow {
    Runs.Fold(Apply, u, ops)
  }

  /** What one call accounts for. The two reported kinds are rebuilt from the returned duration alone. */
  function Accounts(u: UptimeRow, op: Op): seq<Interval> {
    match op
    case Touch(now) =>
      (match TouchOutcome(u, now)
       case Connected => [Interval(Waiting, u.createdAt, now)]
       case Restored(off) => [Interval(WasOff, now - off, now)]
       case NoChange => [])
    case GoDown(now) =>
      (match DownOutcome(u, now)
       case Some(on) => [Interval(WasOn, now - on, now)]
       case None => [])
    case Pause(_) => []
    case Unpause(now) => if UnpauseResult(u, now).Ok? then [Interval(Dropped, u.changedAt, now)] else []
  }

  function Account(u: UptimeRow, ops: seq<Op>): seq<Interval> {
    Runs.Output(Apply, Accounts, u, ops)
  }

  predicate ClockNeverRunsBack(start: Time, ops: seq<Op>) {
    ops == [] ||
    (var before := ops[..|ops| - 1];
     ClockNeverRunsBack(start, before) && Clock(start, before) <= ops[|ops| - 1].now)
  }

  function Clock(start: Time, ops: seq<Op>): Time {
    if ops == [] then start else ops[|ops| - 1].now
  }

  /** The intervals lie end to end, none is negative, and they fill [from, to]. */
  predicate Tiles(intervals: seq<Interval>, from: Time, to: Time) {
    if intervals == [] then from == to
    else
      var last := intervals[|intervals| - 1];
      Tiles(intervals[..|intervals| - 1], from, last.from) && last.from <= last.to == to
  }

  function Total(intervals: seq<Interval>): int {
    if intervals == [] then 0
    else var last := intervals[|intervals| - 1]; Total(intervals[..|intervals| - 1]) + last.to - last.from
  }

  lemma {:induction false} RunFacts(born: UptimeRow, ops: seq<Op>)
    requires born == NewRow(born.id, born.userId, born.createdAt)
    requires ClockNeverRunsBack(born.createdAt, ops)
    ensures var u := Run(born, ops);
            && WellFormed(u)
            && u.(touchedAt := 0, status := Up, changedAt := 0, prePause := None)
               == born.(touchedAt := 0, status := Up, changedAt := 0, prePause := None)
            && u.changedAt <= Clock(born.createdAt, ops)
            && (u.status.Uninitialized? ==> u.changedAt == u.createdAt)
  {
    if ops != [] {
      RunFacts(born, ops[..|ops| - 1]);
    }
  }

  /** The tiling law. */
  lemma {:induction false} DurationsTile(born: UptimeRow, ops: seq<Op>)
    requires born == NewRow(born.id, born.userId, born.createdAt)
    requires ClockNeverRunsBack(born.createdAt, ops)
    ensures Tiles(Account(born, ops), born.createdAt, Run(born, ops).changedAt)
  {
    if ops != [] {
      var before := ops[..|ops| - 1];
      DurationsTile(born, before);
      RunFacts(born, before);
      var earlier, latest := Account(born, before), Accounts(Run(born, before), ops[|ops| - 1]);
      if latest != [] {
        assert (earlier + latest)[..|earlier|] == earlier;
      } else {
        assert earlier + latest == earlier;
      }
    }
  }

  lemma {:induction false} TilesTotal(intervals: seq<Interval>, from: Time, to: Time)
    requires Tiles(intervals, from, to)
    ensures Total(intervals) == to - from
  {
    if intervals != [] {
      TilesTotal(intervals[..|intervals| - 1], from, intervals[|intervals| - 1].from);
    }
  }

  /** Nothing is lost or counted twice: the durations add up to the age of the last change. */
  lemma DurationsAddUp(born: UptimeRow, ops: seq<Op>)
    requires born == NewRow(born.id, born.userId, born.createdAt)
    requires ClockNeverRunsBack(born.createdAt, ops)
    ensures Total(Account(born, ops)) == Run(born, ops).changedAt - born.createdAt
  {
    DurationsTile(born, ops);
    TilesTotal(Account(born, ops), born.createdAt, Run(born, ops).changedAt);
  }

  /** Operation `entered - 1` gave the device the status `s` at time `since`, and it kept it up to operation `end`. */
  ghost predicate Steady(u: UptimeRow, ops: seq<Op>, entered: nat, end: nat, s: UpStatus, since: Time)
    requires 0 < entered <= end <= |ops|
  {
    && ops[entered - 1].now == since
    && Run(u, ops[..entered - 1]).status != s
    && (forall i | entered <= i <= end :: Run(u, ops[..i]).status == s)
    && (forall i | entered <= i < end :: !ops[i].Pause?)
  }

  ghost predicate SteadyStretch(u: UptimeRow, ops: seq<Op>, end: nat, s: UpStatus, since: Time)
    requires end <= |ops|
  {
    exists entered | 0 < entered <= end :: Steady(u, ops, entered, end, s, since)
  }

  lemma {:induction false} SteadySinceChange(born: UptimeRow, ops: seq<Op>, n: nat)
    requires born == NewRow(born.id, born.userId, born.createdAt) && n <= |ops|
    requires Run(born, ops[..n]).status in {Up, Down}
    ensures SteadyStretch(born, ops, n, Run(born, ops[..n]).status, Run(born, ops[..n]).changedAt)
  {
    var u := Run(born, ops[..n]);
    assert n > 0;
    assert ops[..n][..n - 1] == ops[..n - 1];
    var prior := Run(born, ops[..n - 1]);
    if prior.status == u.status && prior.changedAt == u.changedAt {
      SteadySinceChange(born, ops, n - 1);
      var entered :| 0 < entered <= n - 1 && Steady(born, ops, entered, n - 1, u.status, u.changedAt);
      assert Steady(born, ops, entered, n, u.status, u.changedAt);
    } else {
      assert Steady(born, ops, n, n, u.status, u.changedAt);
    }
  }

  lemma {:induction false} ClockPrefix(start: Time, ops: seq<Op>, k: nat)
    requires k <= |ops| && ClockNeverRunsBack(start, ops)
    ensures ClockNeverRunsBack(start, ops[..k])
  {
    if k < |ops| {
      ClockPrefix(start, ops[..|ops| - 1], k);
      assert ops[..|ops| - 1][..k] == ops[..k];
    } else {
      assert ops[..k] == ops;
    }
  }

  /** Every reported duration is honest: it ends at the report, the device held exactly the reported status
      from its start to its end, and no pause falls inside it. */
  lemma ReportedDurationsAreHonest(born: UptimeRow, ops: seq<Op>, k: nat, r: Interval)
    requires born == NewRow(born.id, born.userId, born.createdAt)
    requires k < |ops| && ClockNeverRunsBack(born.createdAt, ops)
    requires r in Accounts(Run(born, ops[..k]), ops[k]) && r.kind in {WasOn, WasOff}
    ensures r.to == ops[k].now
    ensures SteadyStretch(born, ops, k, if r.kind == WasOn then Up else Down, r.from)
  {
    ClockPrefix(born.createdAt, ops, k + 1);
    assert ops[..k + 1][..k] == ops[..k];
    RunFacts(born, ops[..k]);
    var u := Run(born, ops[..k]);
    AccountsOf(u, ops[k], r);
    SteadySinceChange(born, ops, k);
  }

  lemma AccountsOf(u: UptimeRow, op: Op, r: Interval)
    requires r in Accounts(u, op) && r.kind in {WasOn, WasOff} && u.changedAt <= op.now
    ensures r == Interval(r.kind, u.changedAt, op.now)
    ensures u.status == if r.kind == WasOn then Up else Down
  {
  }

  /** Without the clock assumption the law fails: a device can go down without any report,
      and it does so exactly when the clock reads less than the time of the last change. */
  lemma SilentDownNeedsABackwardClock(u: UptimeRow, now: Time)
    requires u.status.Up?
    ensures Accounts(u, GoDown(now)) == [] <==> now < u.changedAt
    ensures Apply(u, GoDown(now)).status.Down?
  {
  }
}
