/** The per-device uptime state: src/db/models.rs, `UptimeState` and its four transitions.

    `UptimeRow` is a snapshot, as cloned for notifications and stored in the table; the class
    `UptimeState` is the record the methods update in place. The functions on rows say what each
    method does, and the lemmas of this file, Tiling and Device are about them. */
module Uptime {
  import opened Base

  datatype UpStatus = Uninitialized | Up | Down | Paused

  datatype UptimeRow = UptimeRow(
    id: ID,
    createdAt: Time,
    touchedAt: Time,
    status: UpStatus,
    userId: ID,
    changedAt: Time,
    prePause: Option<UpStatus>)

  datatype TouchResult = NoChange | Connected | Restored(off: int)

  datatype PauseError = AlreadyPaused | NotYetConnected | NotPaused

  /** `UptimeState::new`. */
  function NewRow(id: ID, userId: ID, now: Time): UptimeRow {
    UptimeRow(id, now, now, Uninitialized, userId, now, None)
  }

  function Touched(u: UptimeRow, now: Time): UptimeRow {
    if u.status.Uninitialized? || u.status.Down?
    then u.(touchedAt := now, status := Up, changedAt := now)
    else u.(touchedAt := now)
  }

  function TouchOutcome(u: UptimeRow, now: Time): TouchResult {
    match u.status
    case Uninitialized => Connected
    case Down => Restored(Max(0, now - u.changedAt))
    case _ => NoChange
  }

  function WentDown(u: UptimeRow, now: Time): UptimeRow {
    if u.status.Up? then u.(status := Down, changedAt := now) else u
  }

  /** A clock that ran backwards since the last change yields no duration. */
  function DownOutcome(u: UptimeRow, now: Time): Option<int> {
    if u.status.Up? && now >= u.changedAt then Some(now - u.changedAt) else None
  }

  function PauseResult(u: UptimeRow): Result<UptimeRow, PauseError> {
    match u.status
    case Paused => Err(AlreadyPaused)
    case Uninitialized => Err(NotYetConnected)
    case _ => Ok(u.(prePause := Some(u.status), status := Paused))
  }

  function UnpauseResult(u: UptimeRow, now: Time): Result<UptimeRow, PauseError> {
    if !u.status.Paused? then Err(NotPaused) else
      var restored := match u.prePause case Some(s) => s case None => Up;
      Ok(u.(status := restored, prePause := None, touchedAt := now, changedAt := now))
  }

  /** A device is paused exactly while it remembers what to go back to, and that is Up or Down. */
  predicate WellFormed(u: UptimeRow) {
    if u.status.Paused? then u.prePause == Some(Up) || u.prePause == Some(Down) else u.prePause.None?
  }

  /** The status a device has or, while paused, will go back to. */
  function Effective(u: UptimeRow): UpStatus {
    match (u.status, u.prePause)
    case (Paused, Some(s)) => s
    case (Paused, None) => Up
    case _ => u.status
  }

  /** Who may be paused and resumed, what that does, and why others are refused. A paused row that remembers nothing, as
      versions without that column left it, resumes as Up. */
  lemma RefusalsAreExact(u: UptimeRow, now: Time)
    ensures PauseResult(u) == match u.status
                              case Paused => Err(AlreadyPaused)
                              case Uninitialized => Err(NotYetConnected)
                              case _ => Ok(u.(status := Paused, prePause := Some(u.status)))
    ensures var back := if u.prePause.Some? then u.prePause.value else Up;
            UnpauseResult(u, now) ==
            if u.status != Paused then Err(NotPaused)
            else Ok(u.(status := back, prePause := None, touchedAt := now, changedAt := now))
  {
  }

  /** The record itself. */
  class UptimeState {
    const id: ID
    const createdAt: Time
    const userId: ID
    var touchedAt: Time
    var status: UpStatus
    var changedAt: Time
    var prePause: Option<UpStatus>

    constructor New(id: ID, userId: ID, now: Time)
      ensures Row() == NewRow(id, userId, now)
    {
      this.id, this.userId, createdAt := id, userId, now;
      touchedAt, status, changedAt, prePause := now, Uninitialized, now, None;
    }

    constructor Load(row: UptimeRow)
      ensures Row() == row
    {
      id, userId, createdAt := row.id, row.userId, row.createdAt;
      touchedAt, status, changedAt, prePause := row.touchedAt, row.status, row.changedAt, row.prePause;
    }

    function Row(): UptimeRow
      reads this
    {
      UptimeRow(id, createdAt, touchedAt, status, userId, changedAt, prePause)
    }

    method Touch(now: Time) returns (r: TouchResult)
      modifies this
      ensures Row() == Touched(old(Row()), now)
      ensures r == TouchOutcome(old(Row()), now)
    {
      touchedAt := now;
      if status == Uninitialized {
        status := Up;
        changedAt := now;
        return Connected;
      }
      if status == Down {
        var off := if now >= changedAt then now - changedAt else 0;
        status := Up;
        changedAt := now;
        return Restored(off);
      }
      return NoChange;
    }

    method GoDown(now: Time) returns (on: Option<int>)
      modifies this
      ensures Row() == WentDown(old(Row()), now)
      ensures on == DownOutcome(old(Row()), now)
    {
      if status == Up {
        on := if now >= changedAt then Some(now - changedAt) else None;
        status := Down;
        changedAt := now;
        return on;
      }
      return None;
    }

    method Pause() returns (error: Option<PauseError>)
      modifies this
      ensures match PauseResult(old(Row()))
              case Ok(row) => Row() == row && error.None?
              case Err(e) => Row() == old(Row()) && error == Some(e)
    {
      match status
      case Up | Down =>
        prePause := Some(status);
        status := Paused;
        return None;
      case Paused => return Some(AlreadyPaused);
      case Uninitialized => return Some(NotYetConnected);
    }

    method Unpause(now: Time) returns (error: Option<PauseError>)
      modifies this
      ensures match UnpauseResult(old(Row()), now)
              case Ok(row) => Row() == row && error.None?
              case Err(e) => Row() == old(Row()) && error == Some(e)
    {
      if status != Paused {
        return Some(NotPaused);
      }
      status := match prePause case Some(s) => s case None => Up;
      prePause := None;
      touchedAt := now;
      changedAt := now;
      return None;
    }
  }
}
