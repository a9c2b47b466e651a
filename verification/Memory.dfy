/** The shared in-memory state and its critical sections: src/context.rs, and the parts of
    src/background.rs, src/api/core.rs, src/api/user.rs and src/api/admin.rs that run under the users lock. */
module Memory {
  import opened Base
  import opened Uptime
  import opened Models
  import opened Notifications
  import opened Device

  /** The three cached maps. */
  datatype Mem = Mem(users: map<ID, UserState>, tokens: map<string, ID>, inviteTokens: map<string, ID>)

  const EMPTY_MEM := Mem(map[], map[], map[])

  function AddToken(m: Mem, v: UserState): Mem {
    m.(tokens := m.tokens[v.user.accessToken := v.user.id])
  }

  function AddUser(m: Mem, v: UserState): Mem {
    m.(users := m.users[v.user.id := v])
  }

  function AddInviteToken(m: Mem, v: Invite): Mem {
    m.(inviteTokens := m.inviteTokens[v.token := v.id])
  }

  function UsedPlus(u: User, delta: int): User {
    u.(invitesUsed := u.invitesUsed + delta)
  }

  /** Adds `delta` to the cached count of invites a user has used, if the user is cached. */
  function BumpUsed(m: Mem, uid: ID, delta: int): Mem {
    if uid in m.users
    then m.(users := m.users[uid := m.users[uid].(user := UsedPlus(m.users[uid].user, delta))])
    else m
  }

  function DropInvites(m: Mem, ids: set<ID>): Mem {
    m.(inviteTokens := map t | t in m.inviteTokens && m.inviteTokens[t] !in ids :: m.inviteTokens[t])
  }

  predicate HasInvite(m: Mem, id: ID) {
    exists t | t in m.inviteTokens :: m.inviteTokens[t] == id
  }

  function DropUser(m: Mem, uid: ID): Mem {
    m.(users := m.users - {uid})
  }

  function DropToken(m: Mem, token: string): Mem {
    m.(tokens := m.tokens - {token})
  }

  /** The whole of `remove_user`. */
  function RemoveUser(m: Mem, uid: ID): Mem {
    if uid in m.users then DropToken(DropUser(m, uid), m.users[uid].user.accessToken) else m
  }

  /** The effect of one device event on the users map; an unknown user is left unknown. */
  function OnDevice(m: Mem, uid: ID, e: Event): Mem {
    if uid in m.users then m.(users := m.users[uid := Step(m.users[uid], e)]) else m
  }

  /** One pass of the loop, as a pointwise update: no entry depends on another, nor on the order of the visit. */
  function Scanned(users: map<ID, UserState>, now: Time, clock: ID -> Time): map<ID, UserState> {
    map id | id in users :: Step(users[id], Scan(now, clock(id)))
  }

  /** What is left of a device's delay; negative once it is overdue. */
  function DueIn(d: UserState, now: Time): int {
    d.uptime.touchedAt + d.user.upDelay * 1_000_000 - now
  }

  /** `s` is the least of five seconds and the times to the deadlines that have not passed. */
  ghost predicate IsSleep(users: map<ID, UserState>, now: Time, s: int) {
    && s <= 5_000_000
    && (forall id | id in users && DueIn(users[id], now) >= 0 :: s <= DueIn(users[id], now))
    && (s == 5_000_000 || exists id | id in users :: DueIn(users[id], now) >= 0 && s == DueIn(users[id], now))
  }

  /** The dispatch calls made for one user, in order. */
  function CallsFor(log: seq<(ID, Dispatch)>, id: ID): seq<Dispatch> {
    if log == [] then []
    else CallsFor(log[..|log| - 1], id) + if log[|log| - 1].0 == id then [log[|log| - 1].1] else []
  }

  lemma CallsForAppend(log: seq<(ID, Dispatch)>, entry: (ID, Dispatch), id: ID)
    ensures CallsFor(log + [entry], id) == CallsFor(log, id) + if entry.0 == id then [entry.1] else []
  {
    assert (log + [entry])[..|log|] == log;
  }

  lemma {:induction false} CallsForConcat(a: seq<(ID, Dispatch)>, b: seq<(ID, Dispatch)>, id: ID)
    ensures CallsFor(a + b, id) == CallsFor(a, id) + CallsFor(b, id)
  {
    if b == [] {
      assert a + b == a;
    } else {
      var before, last := b[..|b| - 1], b[|b| - 1];
      CallsForConcat(a, before, id);
      CallsForAppend(a + before, last, id);
      assert a + b == a + before + [last];
    }
  }

  class Context {
    var users: map<ID, UserState>
    var tokens: map<string, ID>
    var inviteTokens: map<string, ID>
    /** Every call of `dispatch_notifications`, in the order of the calls. */
    var dispatched: seq<(ID, Dispatch)>

    constructor ()
      ensures View() == EMPTY_MEM && dispatched == []
    {
      users, tokens, inviteTokens, dispatched := map[], map[], map[], [];
    }

    function View(): Mem
      reads this
    {
      Mem(users, tokens, inviteTokens)
    }

    method AddState(v: UserState)
      modifies this
      ensures View() == AddUser(AddToken(old(View()), v), v) && dispatched == old(dispatched)
    {
      tokens := tokens[v.user.accessToken := v.user.id];
      users := users[v.user.id := v];
    }

    method AddInvite(v: Invite)
      modifies this
      ensures View() == BumpUsed(AddInviteToken(old(View()), v), v.ownerId, 1) && dispatched == old(dispatched)
    {
      inviteTokens := inviteTokens[v.token := v.id];
      if v.ownerId in users {
        var state := users[v.ownerId];
        users := users[v.ownerId := state.(user := state.user.(invitesUsed := state.user.invitesUsed + 1))];
      }
    }

    /** Removes every token of the invite; true if there was one. */
    method RemoveInvite(id: ID) returns (found: bool)
      modifies this
      ensures View() == DropInvites(old(View()), {id}) && dispatched == old(dispatched)
      ensures found == HasInvite(old(View()), id)
    {
      var before := |inviteTokens|;
      ghost var was := inviteTokens;
      inviteTokens := map t | t in inviteTokens && inviteTokens[t] !in {id} :: inviteTokens[t];
      found := |inviteTokens| < before;
      FewerIffDropped(was, inviteTokens, id);
    }

    method RemoveUserEntry(uid: ID)
      modifies this
      ensures View() == RemoveUser(old(View()), uid) && dispatched == old(dispatched)
    {
      if uid in users {
        var token := users[uid].user.accessToken;
        users := users - {uid};
        tokens := tokens - {token};
      }
    }

    method RemoveInviteIds(ids: seq<ID>)
      modifies this
      ensures View() == DropInvites(old(View()), set i | i in ids) && dispatched == old(dispatched)
    {
      ghost var was := View();
      if ids == [] {
        assert DropInvites(was, {}).inviteTokens == was.inviteTokens;
        return;
      }
      inviteTokens := map t | t in inviteTokens && inviteTokens[t] !in ids :: inviteTokens[t];
      assert inviteTokens == DropInvites(was, set i | i in ids).inviteTokens;
    }

    /** The critical section of `api_up`: touch, and dispatch unless a maintenance window is open.
        The snapshot is what the handler writes to the table afterwards; None means the user is gone. */
    method Up(uid: ID, wall: Time, at: Time) returns (snapshot: Option<UptimeRow>)
      modifies this
      ensures View() == OnDevice(old(View()), uid, Ping(wall, at))
      ensures dispatched == old(dispatched)
                            + Tagged(uid, if uid in old(users) then Calls(old(users)[uid], Ping(wall, at)) else [])
      ensures snapshot == if uid in users then Some(users[uid].uptime) else None
    {
      if uid !in users {
        return None;
      }
      var item := users[uid];
      var inMaint := InMaintenance(item.user, wall);
      var cell := new UptimeState.Load(item.uptime);
      var outcome := cell.Touch(at);
      var row := cell.Row();
      users := users[uid := item.(uptime := row)];
      match outcome {
        case Connected =>
          if !inMaint {
            dispatched := dispatched + [(uid, Dispatch(Uninitialized, None))];
          }
        case Restored(off) =>
          if !inMaint {
            dispatched := dispatched + [(uid, Dispatch(row.status, Some(off)))];
          }
        case NoChange =>
      }
      return Some(row);
    }

    /** The locked part of `pause_monitoring`, up to its own write to the table. */
    method PauseMonitoring(uid: ID, at: Time) returns (snapshot: Option<UptimeRow>)
      modifies this
      ensures View() == OnDevice(old(View()), uid, Event.Pause(at)) && dispatched == old(dispatched)
      ensures snapshot == if uid in old(users) && PauseResult(old(users)[uid].uptime).Ok?
                          then Some(users[uid].uptime) else None
    {
      if uid !in users {
        return None;
      }
      var cell := new UptimeState.Load(users[uid].uptime);
      var error := cell.Pause();
      users := users[uid := users[uid].(uptime := cell.Row())];
      return if error.Some? then None else Some(cell.Row());
    }

    method UnpauseMonitoring(uid: ID, at: Time) returns (snapshot: Option<UptimeRow>)
      modifies this
      ensures View() == OnDevice(old(View()), uid, Event.Unpause(at)) && dispatched == old(dispatched)
      ensures snapshot == if uid in old(users) && UnpauseResult(old(users)[uid].uptime, at).Ok?
                          then Some(users[uid].uptime) else None
    {
      if uid !in users {
        return None;
      }
      var cell := new UptimeState.Load(users[uid].uptime);
      var error := cell.Unpause(at);
      users := users[uid := users[uid].(uptime := cell.Row())];
      return if error.Some? then None else Some(cell.Row());
    }

    /** The body of the loop: one entry of the map. */
    method Visit(id: ID, now: Time, at: Time, sleepSoFar: int) returns (sleepFor: int, persist: Option<UptimeRow>)
      requires id in users
      modifies this
      ensures View() == old(View()).(users := old(users)[id := Step(old(users)[id], Scan(now, at))])
      ensures dispatched == old(dispatched) + Tagged(id, Calls(old(users)[id], Scan(now, at)))
      ensures var due := old(users)[id].uptime.touchedAt + old(users)[id].user.upDelay * 1_000_000;
              sleepFor == if due >= now then Min(due - now, sleepSoFar) else sleepSoFar
      ensures persist == if Calls(old(users)[id], Scan(now, at)) == [] then None else Some(users[id].uptime)
    {
      var item := users[id];
      sleepFor, persist := sleepSoFar, None;
      var queryAt := item.uptime.touchedAt + item.user.upDelay * SECOND;
      if queryAt >= now {
        sleepFor := if queryAt - now < sleepFor then queryAt - now else sleepFor;
      } else if item.uptime.status == Paused {
      } else if InMaintenance(item.user, now) {
      } else {
        var cell := new UptimeState.Load(item.uptime);
        var on := cell.GoDown(at);
        users := users[id := item.(uptime := cell.Row())];
        if on.Some? {
          persist := Some(cell.Row());
          dispatched := dispatched + [(id, Dispatch(cell.status, on))];
        }
      }
    }

    /** One pass of `background_handle_down` under the lock, visiting the entries in any order.
        Whatever the order, the map, the sleep and each user's notifications come out the same. */
    method HandleDown(now: Time, clock: ID -> Time) returns (sleepFor: int, toPersist: seq<UptimeRow>)
      modifies this
      ensures View() == old(View()).(users := Scanned(old(users), now, clock))
      ensures IsSleep(old(users), now, sleepFor)
      ensures PartlyLogged(dispatched, old(dispatched), old(users), {}, now, clock)
      ensures ToPersist(toPersist, old(users), {}, now, clock)
    {
      hide Step, Calls, IsSleep, PartlyScanned, PartlyLogged, ToPersist, Visited, Scanned;
      ghost var was, log := users, dispatched;
      sleepFor := 5 * SECOND;
      toPersist := [];
      var todo := users.Keys;
      NothingVisited(was, log, now, clock);
      while todo != {}
        invariant todo <= users.Keys == was.Keys
        invariant tokens == old(tokens) && inviteTokens == old(inviteTokens)
        invariant PartlyScanned(users, was, todo, now, clock)
        invariant IsSleep(Visited(was, todo), now, sleepFor)
        invariant PartlyLogged(dispatched, log, was, todo, now, clock)
        invariant ToPersist(toPersist, was, todo, now, clock)
      {
        var id :| id in todo;
        NotYetVisited(users, was, todo, id, now, clock);
        ghost var seen, before, prior, rows := users, dispatched, sleepFor, toPersist;
        var persist;
        sleepFor, persist := Visit(id, now, clock(id), sleepFor);
        if persist.Some? {
          toPersist := toPersist + [persist.value];
        }
        ScanExtends(seen, was, todo, id, now, clock);
        LogExtends(before, log, was, todo, id, now, clock);
        ToPersistExtends(rows, was, todo, id, now, clock);
        SleepExtends(was, todo, id, now, prior, sleepFor);
        todo := todo - {id};
      }
      AllVisited(users, was, now, clock);
    }
  }

  ghost predicate PartlyScanned(users: map<ID, UserState>, was: map<ID, UserState>, todo: set<ID>, now: Time,
                                clock: ID -> Time)
    requires users.Keys == was.Keys
  {
    forall id | id in was :: users[id] == if id in todo then was[id] else Step(was[id], Scan(now, clock(id)))
  }

  lemma NothingVisited(was: map<ID, UserState>, log: seq<(ID, Dispatch)>, now: Time, clock: ID -> Time)
    ensures PartlyScanned(was, was, was.Keys, now, clock) && PartlyLogged(log, log, was, was.Keys, now, clock)
    ensures ToPersist([], was, was.Keys, now, clock) && IsSleep(Visited(was, was.Keys), now, 5 * SECOND)
  {
  }

  lemma NotYetVisited(users: map<ID, UserState>, was: map<ID, UserState>, todo: set<ID>, id: ID, now: Time,
                      clock: ID -> Time)
    requires users.Keys == was.Keys && id in was && id in todo && PartlyScanned(users, was, todo, now, clock)
    ensures users[id] == was[id]
  {
  }

  lemma AllVisited(users: map<ID, UserState>, was: map<ID, UserState>, now: Time, clock: ID -> Time)
    requires users.Keys == was.Keys && PartlyScanned(users, was, {}, now, clock)
    ensures users == Scanned(was, now, clock) && Visited(was, {}) == was
  {
    hide Step;
  }

  lemma ScanExtends(users: map<ID, UserState>, was: map<ID, UserState>, todo: set<ID>, id: ID, now: Time,
                    clock: ID -> Time)
    requires users.Keys == was.Keys && id in was && id in todo && PartlyScanned(users, was, todo, now, clock)
    ensures var users' := users[id := Step(users[id], Scan(now, clock(id)))];
            users'.Keys == was.Keys && PartlyScanned(users', was, todo - {id}, now, clock)
  {
    var users' := users[id := Step(users[id], Scan(now, clock(id)))];
    assert users'.Keys == was.Keys;
  }

  function ScanCalls(was: map<ID, UserState>, todo: set<ID>, id: ID, now: Time, clock: ID -> Time): seq<Dispatch> {
    if id in was && id !in todo then Calls(was[id], Scan(now, clock(id))) else []
  }

  /** Every visited entry has added its own calls, and nothing else, to its user's share of the log. */
  ghost predicate PartlyLogged(log': seq<(ID, Dispatch)>, log: seq<(ID, Dispatch)>, was: map<ID, UserState>,
                               todo: set<ID>, now: Time, clock: ID -> Time)
  {
    forall id :: CallsFor(log', id) == CallsFor(log, id) + ScanCalls(was, todo, id, now, clock)
  }

  lemma LogExtends(before: seq<(ID, Dispatch)>, log: seq<(ID, Dispatch)>, was: map<ID, UserState>,
                   todo: set<ID>, id: ID, now: Time, clock: ID -> Time)
    requires id in was && id in todo && PartlyLogged(before, log, was, todo, now, clock)
    ensures PartlyLogged(before + Tagged(id, Calls(was[id], Scan(now, clock(id)))), log, was, todo - {id}, now, clock)
  {
    var more := Calls(was[id], Scan(now, clock(id)));
    CallsForTagged(before, id, more);
    forall k
      ensures CallsFor(before + Tagged(id, more), k) == CallsFor(log, k) + ScanCalls(was, todo - {id}, k, now, clock)
    {
      assert CallsFor(before, k) == CallsFor(log, k) + ScanCalls(was, todo, k, now, clock);
      assert k != id ==> ScanCalls(was, todo - {id}, k, now, clock) == ScanCalls(was, todo, k, now, clock);
    }
  }

  /** The rows to write are those of exactly the entries that sent a notification, in their new state. */
  ghost predicate ToPersist(rows: seq<UptimeRow>, was: map<ID, UserState>, todo: set<ID>, now: Time,
                            clock: ID -> Time) {
    forall row :: row in rows <==> exists id | id in was :: FellTo(was, todo, id, now, clock, row)
  }

  ghost predicate FellTo(was: map<ID, UserState>, todo: set<ID>, id: ID, now: Time, clock: ID -> Time, row: UptimeRow)
    requires id in was
  {
    ScanCalls(was, todo, id, now, clock) != [] && row == Step(was[id], Scan(now, clock(id))).uptime
  }

  lemma ToPersistExtends(rows: seq<UptimeRow>, was: map<ID, UserState>, todo: set<ID>, id: ID, now: Time,
                         clock: ID -> Time)
    requires id in was && id in todo && ToPersist(rows, was, todo, now, clock)
    ensures var fell := Calls(was[id], Scan(now, clock(id))) != [];
            var rows' := if fell then rows + [Step(was[id], Scan(now, clock(id))).uptime] else rows;
            ToPersist(rows', was, todo - {id}, now, clock)
  {
    var after := Step(was[id], Scan(now, clock(id))).uptime;
    var fell := Calls(was[id], Scan(now, clock(id))) != [];
    var rows' := if fell then rows + [after] else rows;
    forall row | row in rows' ensures exists k | k in was :: FellTo(was, todo - {id}, k, now, clock, row) {
      if row in rows {
        var k :| k in was && FellTo(was, todo, k, now, clock, row);
        assert FellTo(was, todo - {id}, k, now, clock, row);
      } else {
        assert FellTo(was, todo - {id}, id, now, clock, row);
      }
    }
    forall k, row | k in was && FellTo(was, todo - {id}, k, now, clock, row) ensures row in rows' {
      assert k == id || FellTo(was, todo, k, now, clock, row);
    }
  }

  function Visited(was: map<ID, UserState>, todo: set<ID>): map<ID, UserState> {
    map id | id in was && id !in todo :: was[id]
  }

  /** One user's share of the log, tagged. */
  function Tagged(uid: ID, calls: seq<Dispatch>): seq<(ID, Dispatch)> {
    seq(|calls|, i requires 0 <= i < |calls| => (uid, calls[i]))
  }

  lemma CallsForTagged(log: seq<(ID, Dispatch)>, uid: ID, calls: seq<Dispatch>)
    requires |calls| <= 1
    ensures forall id :: CallsFor(log + Tagged(uid, calls), id) == CallsFor(log, id) + if id == uid then calls else []
  {
    if calls == [] {
      assert log + Tagged(uid, calls) == log;
    } else {
      assert Tagged(uid, calls) == [(uid, calls[0])];
      forall id ensures CallsFor(log + Tagged(uid, calls), id) == CallsFor(log, id) + if id == uid then calls else [] {
        CallsForAppend(log, (uid, calls[0]), id);
      }
    }
  }

  lemma SleepExtends(was: map<ID, UserState>, todo: set<ID>, id: ID, now: Time, prior: int, s: int)
    requires id in was && id in todo && IsSleep(Visited(was, todo), now, prior)
    requires var due := was[id].uptime.touchedAt + was[id].user.upDelay * 1_000_000;
             s == if due >= now then Min(due - now, prior) else prior
    ensures IsSleep(Visited(was, todo - {id}), now, s)
  {
    var seen, more := Visited(was, todo), Visited(was, todo - {id});
    assert id in more && forall k | k in seen :: k in more && more[k] == seen[k];
    assert forall k | k in more :: k == id || k in seen;
  }

  /** There is one such sleep, and it is positive unless a device is due at this very moment. */
  lemma SleepIsDetermined(users: map<ID, UserState>, now: Time, s: int, s': int)
    requires IsSleep(users, now, s) && IsSleep(users, now, s')
    ensures s == s' && 0 <= s <= 5_000_000
    ensures s == 0 <==> exists id | id in users ::
            users[id].uptime.touchedAt + users[id].user.upDelay * 1_000_000 == now
  {
    if id :| id in users && users[id].uptime.touchedAt + users[id].user.upDelay * 1_000_000 == now {
      assert DueIn(users[id], now) == 0;
    }
  }

  lemma FewerIffDropped(was: map<string, ID>, kept: map<string, ID>, id: ID)
    requires kept == map t | t in was && was[t] !in {id} :: was[t]
    ensures |kept| < |was| <==> exists t | t in was :: was[t] == id
  {
    var dropped := was.Keys - kept.Keys;
    assert |was.Keys| == |kept.Keys| + |dropped| by { assert was.Keys == kept.Keys + dropped; }
    assert |kept| == |kept.Keys| && |was| == |was.Keys|;
    if t :| t in was && was[t] == id {
      assert t in dropped;
    }
  }
}
