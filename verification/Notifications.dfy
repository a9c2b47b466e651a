/** What a dispatch call turns into: src/notifications.rs. */
module Notifications {
  import opened Base
  import opened Uptime
  import opened Models

  /** A call of `dispatch_notifications`: the status in the cloned state and the duration, in microseconds. */
  datatype Dispatch = Dispatch(status: UpStatus, duration: Option<int>)

  datatype Title = DeviceConnected | PowerOn | PowerOff

  datatype Message = NoMessage | PowerWasOff(off: int) | PowerWasOn(on: int)

  datatype Notification = Notification(topic: string, title: Title, message: Message, tag: string)

  /** A paused state is dropped before anything is sent. */
  function TitleOf(call: Dispatch): Option<Title> {
    match call.status
    case Uninitialized => Some(DeviceConnected)
    case Up => Some(PowerOn)
    case Down => Some(PowerOff)
    case Paused => None
  }

  function MessageOf(call: Dispatch): Message {
    match (call.status, call.duration)
    case (Up, Some(d)) => PowerWasOff(d)
    case (Down, Some(d)) => PowerWasOn(d)
    case _ => NoMessage
  }

  /** The notification handed to the ntfy client, if any. */
  function Sent(call: Dispatch, ntfy: NtfyUser): Option<Notification> {
    match TitleOf(call)
    case None => None
    case Some(title) =>
      if !ntfy.enabled then None
      else Some(Notification(ntfy.topic, title, MessageOf(call),
                             if call.status.Down? then "warning" else "white_check_mark"))
  }

  /** What a call comes to for the user: nothing unless their notifications are on, and then their topic, a title, the
      length of the time that has ended, and a warning exactly for a power-off. A paused device sends nothing. */
  lemma SentSaysWhatHappened(call: Dispatch, ntfy: NtfyUser)
    ensures Sent(call, ntfy).Some? <==> ntfy.enabled && !call.status.Paused?
    ensures forall on :: call == Dispatch(Down, Some(on)) ==>
              (ntfy.enabled <==>
                Sent(call, ntfy) == Some(Notification(ntfy.topic, PowerOff, PowerWasOn(on), "warning")))
    ensures forall off :: call == Dispatch(Up, Some(off)) ==>
              (ntfy.enabled <==>
                Sent(call, ntfy) == Some(Notification(ntfy.topic, PowerOn, PowerWasOff(off), "white_check_mark")))
    ensures call == Dispatch(Uninitialized, None) ==>
              (ntfy.enabled <==>
                Sent(call, ntfy) == Some(Notification(ntfy.topic, DeviceConnected, NoMessage, "white_check_mark")))
  {
  }

  datatype Unit = Days | Hours | Minutes

  datatype Part = Part(unit: Unit, count: nat)

  function UnitMinutes(u: Unit): nat {
    match u case Days => 1440 case Hours => 60 case Minutes => 1
  }

  /** The number of whole minutes a list of parts stands for. */
  function TotalMinutes(parts: seq<Part>): nat {
    if parts == [] then 0 else parts[0].count * UnitMinutes(parts[0].unit) + TotalMinutes(parts[1..])
  }

  /** Units descend, no part is zero unless it is the only one, hours and minutes stay below a day and an hour. */
  predicate Canonical(parts: seq<Part>) {
    && 1 <= |parts| <= 3
    && (forall i, j | 0 <= i < j < |parts| :: UnitMinutes(parts[i].unit) > UnitMinutes(parts[j].unit))
    && (forall i | 0 <= i < |parts| ::
          && (parts[i].count == 0 ==> |parts| == 1 && parts[i].unit.Minutes?)
          && (parts[i].unit.Hours? ==> parts[i].count < 24)
          && (parts[i].unit.Minutes? ==> parts[i].count < 60))
  }

  function PartsOf(days: nat, hours: nat, minutes: nat): seq<Part> {
    (if days > 0 then [Part(Days, days)] else [])
    + (if hours > 0 then [Part(Hours, hours)] else [])
    + (if minutes > 0 || days + hours == 0 then [Part(Minutes, minutes)] else [])
  }

  lemma PartsAreCanonical(days: nat, hours: nat, minutes: nat)
    requires hours < 24 && minutes < 60
    ensures Canonical(PartsOf(days, hours, minutes))
    ensures TotalMinutes(PartsOf(days, hours, minutes)) == 1440 * days + 60 * hours + minutes
  {
    TotalOfUpToThree(PartsOf(days, hours, minutes));
  }

  /** `format_duration`, up to the wording of each part. */
  method FormatDuration(duration: nat) returns (parts: seq<Part>)
    ensures Canonical(parts)
    ensures TotalMinutes(parts) == duration / MINUTE
  {
    var totalSecs := duration / SECOND;
    var days := totalSecs / 86400;
    var hours := totalSecs % 86400 / 3600;
    var minutes := totalSecs % 3600 / 60;
    parts := [];
    if days > 0 {
      parts := parts + [Part(Days, days)];
    }
    if hours > 0 {
      parts := parts + [Part(Hours, hours)];
    }
    if minutes > 0 || parts == [] {
      parts := parts + [Part(Minutes, minutes)];
    }
    SplitsIntoParts(duration);
    PartsAreCanonical(days, hours, minutes);
    assert parts == PartsOf(days, hours, minutes);
  }

  lemma SplitsIntoParts(duration: nat)
    ensures var secs := duration / SECOND;
            duration / MINUTE == 1440 * (secs / 86400) + 60 * (secs % 86400 / 3600) + secs % 3600 / 60
  {
    var secs := duration / SECOND;
    assert duration / MINUTE == secs / 60;
    DayHourMinute(secs);
  }

  lemma DayHourMinute(secs: nat)
    ensures secs / 60 == 1440 * (secs / 86400) + 60 * (secs % 86400 / 3600) + secs % 3600 / 60
  {
    var days, rest := secs / 86400, secs % 86400;
    assert secs % 3600 == rest % 3600;
    assert secs / 60 == 1440 * days + rest / 60;
  }

  lemma TotalOfUpToThree(parts: seq<Part>)
    requires 1 <= |parts| <= 3
    ensures TotalMinutes(parts) == parts[0].count * UnitMinutes(parts[0].unit)
                                   + (if |parts| > 1 then parts[1].count * UnitMinutes(parts[1].unit) else 0)
                                   + (if |parts| > 2 then parts[2].count * UnitMinutes(parts[2].unit) else 0)
  {
    if |parts| > 1 {
      assert TotalMinutes(parts[1..]) == parts[1].count * UnitMinutes(parts[1].unit) + TotalMinutes(parts[1..][1..]);
    }
  }

  /** The count a list of at most three parts gives for one unit. */
  function Digit(parts: seq<Part>, u: Unit): nat {
    if |parts| > 0 && parts[0].unit == u then parts[0].count
    else if |parts| > 1 && parts[1].unit == u then parts[1].count
    else if |parts| > 2 && parts[2].unit == u then parts[2].count
    else 0
  }

  /** Days, hours and minutes of a canonical list are the mixed-radix digits of its total. */
  lemma Digits(parts: seq<Part>)
    requires Canonical(parts)
    ensures TotalMinutes(parts) == 1440 * Digit(parts, Days) + 60 * Digit(parts, Hours) + Digit(parts, Minutes)
    ensures Digit(parts, Hours) < 24 && Digit(parts, Minutes) < 60
  {
    TotalOfUpToThree(parts);
  }

  lemma MixedRadix(d: nat, h: nat, m: nat, d': nat, h': nat, m': nat)
    requires h < 24 && m < 60 && h' < 24 && m' < 60
    requires 1440 * d + 60 * h + m == 1440 * d' + 60 * h' + m'
    ensures d == d' && h == h' && m == m'
  {
  }

  /** Two durations read the same exactly when they agree on whole minutes. */
  lemma CanonicalIsUnique(p: seq<Part>, q: seq<Part>)
    requires Canonical(p) && Canonical(q)
    ensures p == q <==> TotalMinutes(p) == TotalMinutes(q)
  {
    if TotalMinutes(p) == TotalMinutes(q) {
      Digits(p);
      Digits(q);
      MixedRadix(Digit(p, Days), Digit(p, Hours), Digit(p, Minutes),
                 Digit(q, Days), Digit(q, Hours), Digit(q, Minutes));
      SameDigits(p, q);
      assert p == q;
    }
  }

  lemma SameDigits(p: seq<Part>, q: seq<Part>)
    requires Canonical(p) && Canonical(q)
    requires Digit(p, Days) == Digit(q, Days) && Digit(p, Hours) == Digit(q, Hours)
             && Digit(p, Minutes) == Digit(q, Minutes)
    ensures p == q
  {
    assert |p| == |q|;
    assert forall i | 0 <= i < |p| :: p[i] == q[i];
  }
}
