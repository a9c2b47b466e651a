/** The tiling law for a device under all that can happen to it, scans, windows and refused requests included, and what
    of the tiles its user is told. */
module DeviceTiling {
  import opened Base
  import opened Uptime
  import opened Models
  import opened Notifications
  import opened Device
  import opened Thresholds
  import T = Tiling
  import Runs

  /** The transition an event calls for, if any. */
  function OpsOf(d: UserState, e: Event): seq<T.Op> {
    match e
    case Ping(_, at) => [T.Touch(at)]
    case Scan(now, at) => if ReachesGoDown(d, now) then [T.GoDown(at)] else []
    case Pause(at) => [T.Pause(at)]
    case Unpause(at) => [T.Unpause(at)]
    case _ => []
  }

  function OpsAlong(d: UserState, es: seq<Event>): seq<T.Op> {
    Runs.Output(Step, OpsOf, d, es)
  }

  /** The tiles of a device's life. */
  function Tiles(d: UserState, es: seq<Event>): seq<T.Interval> {
    T.Account(d.uptime, OpsAlong(d, es))
  }

  lemma OneEventIsItsOps(d: UserState, e: Event)
    ensures |OpsOf(d, e)| <= 1
    ensures OpsOf(d, e) != [] ==> Step(d, e).uptime == T.Apply(d.uptime, OpsOf(d, e)[0]) && OpsOf(d, e)[0].now == e.at
    ensures OpsOf(d, e) == [] ==> Step(d, e).uptime == d.uptime
  {
  }

  lemma MoreOps(u: UptimeRow, start: Time, ops: seq<T.Op>, more: seq<T.Op>)
    requires |more| <= 1
    ensures T.Run(u, ops + more) == if more == [] then T.Run(u, ops) else T.Apply(T.Run(u, ops), more[0])
    ensures T.Account(u, ops + more) == T.Account(u, ops) + if more == [] then []
            else T.Accounts(T.Run(u, ops), more[0])
    ensures T.ClockNeverRunsBack(start, ops) && (more != [] ==> T.Clock(start, ops) <= more[0].now) ==>
              T.ClockNeverRunsBack(start, ops + more)
    ensures T.Clock(start, ops + more) == if more == [] then T.Clock(start, ops) else more[0].now
  {
    if more == [] {
      assert ops + more == ops;
    } else {
      assert (ops + more)[..|ops|] == ops;
    }
  }

  /** A run of the device is a run of its transitions. */
  lemma {:induction false} RunIsItsOps(d: UserState, start: Time, es: seq<Event>)
    requires Ordered(start, es)
    ensures T.Run(d.uptime, OpsAlong(d, es)) == Run(d, es).uptime
    ensures T.ClockNeverRunsBack(start, OpsAlong(d, es)) && T.Clock(start, OpsAlong(d, es)) <= Clock(start, es)
  {
    if es != [] {
      var before, e := es[..|es| - 1], es[|es| - 1];
      RunIsItsOps(d, start, before);
      OneEventIsItsOps(Run(d, before), e);
      MoreOps(d.uptime, start, OpsAlong(d, before), OpsOf(Run(d, before), e));
    }
  }

  /** Over any run of pings, scans, pauses, unpauses and settings, maintenance windows or not, the first wait, the times
      on and off and the intervals dropped at an unpause lie end to end from creation to the last change. */
  lemma DeviceLifeIsTiled(d: UserState, es: seq<Event>)
    requires d.uptime == NewRow(d.uptime.id, d.uptime.userId, d.uptime.createdAt) && Ordered(d.uptime.createdAt, es)
    ensures T.Tiles(Tiles(d, es), d.uptime.createdAt, Run(d, es).uptime.changedAt)
    ensures T.Total(Tiles(d, es)) == Run(d, es).uptime.changedAt - d.uptime.createdAt
  {
    RunIsItsOps(d, d.uptime.createdAt, es);
    T.DurationsTile(d.uptime, OpsAlong(d, es));
    T.DurationsAddUp(d.uptime, OpsAlong(d, es));
  }

  // ----- What the user is told -----

  /** The tiles that are times on or off. */
  function OnOff(tiles: seq<T.Interval>): seq<T.Interval> {
    if tiles == [] then []
    else
      var last := tiles[|tiles| - 1];
      OnOff(tiles[..|tiles| - 1]) + if last.kind.WasOn? || last.kind.WasOff? then [last] else []
  }

  /** The time a dispatch call speaks of, rebuilt from its duration. */
  function SpokenOf(call: Dispatch, at: Time): seq<T.Interval> {
    match (call.status, call.duration)
    case (Down, Some(on)) => [T.Interval(T.WasOn, at - on, at)]
    case (Up, Some(off)) => [T.Interval(T.WasOff, at - off, at)]
    case _ => []
  }

  /** The times on and off an event puts an end to: spoken of in its call, or kept silent by a maintenance window. */
  function EndedBy(d: UserState, e: Event): seq<T.Interval> {
    if Calls(d, e) != [] then SpokenOf(Calls(d, e)[0], e.at)
    else if e.Ping? && d.uptime.status.Down? && Quiet(d.user, e.wall)
    then [T.Interval(T.WasOff, d.uptime.changedAt, e.at)]
    else []
  }

  lemma OnOffAppend(tiles: seq<T.Interval>, more: seq<T.Interval>)
    requires |more| <= 1
    ensures OnOff(tiles + more) == OnOff(tiles) + OnOff(more)
  {
    if more == [] {
      assert tiles + more == tiles;
    } else {
      assert (tiles + more)[..|tiles|] == tiles;
      assert more[..0] == [];
    }
  }

  lemma OneEventEnds(d: UserState, e: Event)
    requires d.uptime.changedAt <= e.at && ValidSettings(d.user)
    ensures |if OpsOf(d, e) == [] then [] else T.Accounts(d.uptime, OpsOf(d, e)[0])| <= 1
    ensures OnOff(if OpsOf(d, e) == [] then [] else T.Accounts(d.uptime, OpsOf(d, e)[0])) == EndedBy(d, e)
  {
    var tiles := if OpsOf(d, e) == [] then [] else T.Accounts(d.uptime, OpsOf(d, e)[0]);
    if tiles != [] { assert tiles[..0] == []; }
    if e.Ping? { QuietIsInMaintenance(d.user, e.wall); }
  }

  /** The user is told of every time on and every time off, once, in order and with its true length, except of the times
      off that end inside a maintenance window. */
  lemma {:induction false} EveryTimeIsTold(d: UserState, start: Time, es: seq<Event>)
    requires Sound(d, start) && Ordered(start, es)
    ensures OnOff(Tiles(d, es)) == Runs.Output(Step, EndedBy, d, es)
  {
    if es != [] {
      var before, e := es[..|es| - 1], es[|es| - 1];
      EveryTimeIsTold(d, start, before);
      RunStaysSound(d, start, before);
      RunIsItsOps(d, start, before);
      var at := Run(d, before);
      OneEventIsItsOps(at, e);
      OneEventEnds(at, e);
      MoreOps(d.uptime, start, OpsAlong(d, before), OpsOf(at, e));
      OnOffAppend(Tiles(d, before), if OpsOf(at, e) == [] then [] else T.Accounts(at.uptime, OpsOf(at, e)[0]));
    }
  }

  // ----- What the user reads -----

  /** The time on or off that a notification speaks of. */
  function ReadIn(sent: Option<Notification>, at: Time): seq<T.Interval> {
    match sent
    case None => []
    case Some(n) =>
      match n.message
      case PowerWasOn(on) => [T.Interval(T.WasOn, at - on, at)]
      case PowerWasOff(off) => [T.Interval(T.WasOff, at - off, at)]
      case NoMessage => []
  }

  function ReadAt(d: UserState, e: Event): seq<T.Interval> {
    if Calls(d, e) == [] then [] else ReadIn(Sent(Calls(d, e)[0], d.ntfy), e.at)
  }

  /** A time off whose end a maintenance window keeps silent. */
  function SilencedAt(d: UserState, e: Event): seq<T.Interval> {
    if e.Ping? && d.uptime.status.Down? && Quiet(d.user, e.wall)
    then [T.Interval(T.WasOff, d.uptime.changedAt, e.at)] else []
  }

  function ReadOrSilenced(d: UserState, e: Event): seq<T.Interval> {
    ReadAt(d, e) + SilencedAt(d, e)
  }

  lemma ReadOrSilencedIsEnded(d: UserState, now: Time, e: Event)
    requires Sound(d, now) && now <= Start(e) <= e.at
    ensures if d.ntfy.enabled then ReadOrSilenced(d, e) == EndedBy(d, e) else ReadAt(d, e) == []
  {
    if e.Ping? { QuietIsInMaintenance(d.user, e.wall); }
  }

  /** Notifications are on all along, or off all along. */
  predicate SwitchedThroughout(d: UserState, es: seq<Event>, on: bool) {
    && d.ntfy.enabled == on
    && forall i | 0 <= i < |es| :: es[i].Edit? && es[i].edit.EditEnabled? ==> es[i].edit.on == on
  }

  lemma {:induction false} StaysSwitched(d: UserState, es: seq<Event>, on: bool)
    requires SwitchedThroughout(d, es, on)
    ensures Run(d, es).ntfy.enabled == on
  {
    if es != [] {
      assert forall i | 0 <= i < |es| - 1 :: es[..|es| - 1][i] == es[i];
      StaysSwitched(d, es[..|es| - 1], on);
    }
  }

  /** With notifications on all along, the messages the user reads are, in order and each once, the device's times on
      and off with their true lengths, except the times off that end inside a maintenance window; with notifications
      off they read nothing. */
  lemma {:induction false} EveryMessageIsTrue(d: UserState, start: Time, es: seq<Event>, on: bool)
    requires Sound(d, start) && Ordered(start, es) && SwitchedThroughout(d, es, on)
    ensures if on then Runs.Output(Step, ReadOrSilenced, d, es) == OnOff(Tiles(d, es))
            else Runs.Output(Step, ReadAt, d, es) == []
  {
    if on { EveryTimeIsTold(d, start, es); }
    ReadAlong(d, start, es, on);
  }

  lemma {:induction false} ReadAlong(d: UserState, start: Time, es: seq<Event>, on: bool)
    requires Sound(d, start) && Ordered(start, es) && SwitchedThroughout(d, es, on)
    ensures if on then Runs.Output(Step, ReadOrSilenced, d, es) == Runs.Output(Step, EndedBy, d, es)
            else Runs.Output(Step, ReadAt, d, es) == []
  {
    hide Step, ReadAt, ReadOrSilenced, EndedBy, Sound;
    if es != [] {
      var before, e := es[..|es| - 1], es[|es| - 1];
      assert forall i | 0 <= i < |before| :: before[i] == es[i];
      ReadAlong(d, start, before, on);
      StaysSwitched(d, before, on);
      RunStaysSound(d, start, before);
      ReadOrSilencedIsEnded(Run(d, before), Clock(start, before), e);
    }
  }
}
