/** One monitored device under everything that can happen to it: pings (src/api/core.rs), the scanning
    loop (src/background.rs), the pause, unpause and settings handlers (src/api/user.rs), and the writers of other
    columns.

    Each event is one critical section on the users map and carries the clock readings taken in it.
    A scan or ping reads the clock twice: once for thresholds or the window, once inside the transition. */
module Device {
  import opened Base
  import opened MaintenanceWindow
  import opened Uptime
  import opened Models
  import opened Notifications
  import Runs

  datatype Event =
    | Ping(wall: Time, at: Time)
    | Scan(now: Time, at: Time)
    | Pause(at: Time)
    | Unpause(at: Time)
    | Settings(req: UpdateSettings, at: Time)
    | Edit(edit: OtherEdit, at: Time)

  /** Sections that write other columns of the user's entry: invites, token, language and notifications. */
  datatype OtherEdit =
    | EditUsed(delta: int)
    | EditToken(token: string)
    | EditLanguage(code: string)
    | EditEnabled(on: bool)

  function Start(e: Event): Time {
    match e
    case Ping(wall, _) => wall
    case Scan(now, _) => now
    case _ => e.at
  }

  function Deadline(d: UserState): Time {
    d.uptime.touchedAt + d.user.upDelay * SECOND
  }

  predicate InMaintenance(u: User, now: Time) {
    InWindow(u.maintStart, u.maintEnd, MinuteAt(now))
  }

  /** The scan reaches `go_down` for this entry. */
  predicate ReachesGoDown(d: UserState, now: Time) {
    Deadline(d) < now && !d.uptime.status.Paused? && !InMaintenance(d.user, now)
  }

  function Edited(d: UserState, edit: OtherEdit): UserState {
    match edit
    case EditUsed(delta) => d.(user := d.user.(invitesUsed := d.user.invitesUsed + delta))
    case EditToken(token) => d.(user := d.user.(accessToken := token))
    case EditLanguage(code) => d.(user := d.user.(languageCode := code))
    case EditEnabled(on) => d.(ntfy := d.ntfy.(enabled := on))
  }

  function Step(d: UserState, e: Event): UserState {
    match e
    case Ping(_, at) => d.(uptime := Touched(d.uptime, at))
    case Scan(now, at) => if ReachesGoDown(d, now) then d.(uptime := WentDown(d.uptime, at)) else d
    case Pause(_) => (match PauseResult(d.uptime) case Ok(row) => d.(uptime := row) case Err(_) => d)
    case Unpause(at) => (match UnpauseResult(d.uptime, at) case Ok(row) => d.(uptime := row) case Err(_) => d)
    case Settings(req, _) => if Rejection(req).None? then d.(user := SettingsInMemory(d.user, req)) else d
    case Edit(edit, _) => Edited(d, edit)
  }

  /** The dispatch calls an event spawns. The connect call is made with the status set back to Uninitialized. */
  function Calls(d: UserState, e: Event): seq<Dispatch> {
    match e
    case Ping(wall, at) =>
      if InMaintenance(d.user, wall) then []
      else (match TouchOutcome(d.uptime, at)
            case Connected => [Dispatch(Uninitialized, None)]
            case Restored(off) => [Dispatch(Touched(d.uptime, at).status, Some(off))]
            case NoChange => [])
    case Scan(now, at) =>
      if !ReachesGoDown(d, now) then []
      else (match DownOutcome(d.uptime, at)
            case Some(on) => [Dispatch(WentDown(d.uptime, at).status, Some(on))]
            case None => [])
    case _ => []
  }

  function Run(d: UserState, es: seq<Event>): UserState {
    Runs.Fold(Step, d, es)
  }

  function Log(d: UserState, es: seq<Event>): seq<Dispatch> {
    Runs.Output(Step, Calls, d, es)
  }

  function Clock(start: Time, es: seq<Event>): Time {
    if es == [] then start else es[|es| - 1].at
  }

  /** The clock never runs back, within an event or from one to the next. */
  predicate Ordered(start: Time, es: seq<Event>) {
    es == [] ||
    (var before, e := es[..|es| - 1], es[|es| - 1];
     Ordered(start, before) && Clock(start, before) <= Start(e) <= e.at)
  }

  /** A device the server can hold at time `now`. */
  predicate Sound(d: UserState, now: Time) {
    && WellFormed(d.uptime)
    && ValidSettings(d.user)
    && d.uptime.touchedAt <= now
    && d.uptime.changedAt <= now
  }

  lemma {:induction false} RunStaysSound(d: UserState, start: Time, es: seq<Event>)
    requires Sound(d, start) && Ordered(start, es)
    ensures Sound(Run(d, es), Clock(start, es)) && start <= Clock(start, es)
    ensures Run(d, es).uptime.touchedAt >= d.uptime.touchedAt
  {
    if es != [] {
      RunStaysSound(d, start, es[..|es| - 1]);
    }
  }

  lemma {:induction false} OrderedPrefix(start: Time, es: seq<Event>, k: nat)
    requires k <= |es| && Ordered(start, es)
    ensures Ordered(start, es[..k]) && start <= Clock(start, es[..k]) <= Clock(start, es)
    ensures k < |es| ==> Clock(start, es[..k]) <= Start(es[k]) <= es[k].at <= Clock(start, es)
  {
    if k == |es| {
      assert es[..k] == es;
      if k > 0 {
        OrderedPrefix(start, es[..k - 1], k - 1);
        assert es[..k - 1][..k - 1] == es[..k - 1];
      }
    } else {
      OrderedPrefix(start, es[..|es| - 1], k);
      assert es[..|es| - 1][..k] == es[..k];
    }
  }
}
