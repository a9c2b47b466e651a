/** Deadlock freedom of the handlers and the background loop.

    The resources are the connection pool, `init_lock` and the three map locks. A reader-writer lock serves its
    waiters in the order they came, so that a reader behind a waiting writer waits too; a mutex is a lock that is
    only ever taken exclusively; the pool admits as many holders as it has connections. */
module Locks {
  import opened Base

  datatype Lock = Pool | InitLock | Users | Tokens | InviteTokens

  datatype Mode = Shared | Exclusive

  datatype Op = Take(lock: Lock, mode: Mode) | Free(lock: Lock)

  /** What a task has left to do with locks, what it holds, and whether it waits for the lock it takes next. */
  datatype Task = Task(rest: seq<Op>, held: map<Lock, Mode>, waiting: bool)

  datatype State = State(tasks: map<ID, Task>, queues: map<Lock, seq<ID>>)

  const IDLE := State(map[], map[])

  function Rank(l: Lock): nat {
    match l
    case Pool => 0
    case InitLock => 1
    case Users => 2
    case Tokens => 3
    case InviteTokens => 4
  }

  // ----- What handlers do -----

  /** Locks are taken in order of rank, and none is kept. */
  predicate Disciplined(rest: seq<Op>, held: map<Lock, Mode>)
    decreases |rest|
  {
    if rest == [] then held == map[]
    else
      match rest[0]
      case Take(l, mode) => (forall k | k in held :: Rank(k) < Rank(l)) && Disciplined(rest[1..], held[l := mode])
      case Free(l) => l in held && Disciplined(rest[1..], held - {l})
  }

  /** Guards are scoped: a lock is held for what happens inside its block, then freed. */
  datatype Plan = Done | Hold(lock: Lock, mode: Mode, inside: Plan, next: Plan)

  function Read(l: Lock, next: Plan): Plan {
    Hold(l, Shared, Done, next)
  }

  function Write(l: Lock, next: Plan): Plan {
    Hold(l, Exclusive, Done, next)
  }

  /** A handler's pooled connection outlives all else it takes. */
  function Connected(inside: Plan): Plan {
    Hold(Pool, Exclusive, inside, Done)
  }

  /** `BAuth` and `AdminAuth`. */
  function Auth(next: Plan): Plan {
    Read(Tokens, next)
  }

  function AdminAuth(next: Plan): Plan {
    Read(Tokens, Read(Users, next))
  }

  function AddState(next: Plan): Plan {
    Write(Tokens, Write(Users, next))
  }

  datatype Handler =
    | CreateFirstUser | CreateInvitedUser | CreateInvite | DeleteInvite | ListInvites | DeleteUser | RegenerateToken
    | UpdateNtfy | UpdateOwnState | ReadOwnState | ReadAllStates | ScanRound | LoadRow

  /** The longest path of each handler; any other path stops somewhere on it and frees what it holds. `UpdateOwnState`
      is the path of the language and settings updates, `api_up`, pause and unpause. */
  function PlanOf(h: Handler): Plan {
    match h
    case CreateFirstUser => Connected(Hold(InitLock, Exclusive, Read(Users, AddState(Done)), Done))
    case CreateInvitedUser => Connected(Read(InviteTokens, Write(InviteTokens, AddState(Done))))
    case CreateInvite => AdminAuth(Connected(Read(Users, Write(InviteTokens, Write(Users, Done)))))
    case DeleteInvite => AdminAuth(Connected(Write(InviteTokens, Write(Users, Done))))
    case ListInvites => AdminAuth(Connected(Done))
    case DeleteUser =>
      AdminAuth(Connected(Read(Users, Hold(Users, Exclusive, Write(Tokens, Done), Write(InviteTokens, Done)))))
    case RegenerateToken => Auth(Connected(Write(Users, Write(Tokens, Done))))
    case UpdateNtfy => Auth(Connected(Read(Users, Write(Users, Done))))
    case UpdateOwnState => Auth(Connected(Write(Users, Done)))
    case ReadOwnState => Auth(Read(Users, Done))
    case ReadAllStates => AdminAuth(Read(Users, Done))
    case ScanRound => Write(Users, Connected(Done))
    case LoadRow => Connected(AddState(Write(InviteTokens, Done)))
  }

  function Ops(p: Plan, after: seq<Op>): seq<Op> {
    match p
    case Done => after
    case Hold(l, mode, inside, next) => [Take(l, mode)] + Ops(inside, [Free(l)] + Ops(next, after))
  }

  /** Blocks nest in order of rank. */
  predicate InOrder(p: Plan, above: int) {
    p.Hold? ==> above < Rank(p.lock) && InOrder(p.inside, Rank(p.lock)) && InOrder(p.next, above)
  }

  lemma {:induction false} InOrderIsDisciplined(p: Plan, above: int, after: seq<Op>, held: map<Lock, Mode>)
    requires InOrder(p, above) && (forall k | k in held :: Rank(k) <= above) && Disciplined(after, held)
    ensures Disciplined(Ops(p, after), held)
  {
    if p.Hold? {
      InOrderIsDisciplined(p.next, above, after, held);
      var later := Ops(p.next, after);
      assert held[p.lock := p.mode] - {p.lock} == held;
      assert ([Free(p.lock)] + later)[1..] == later;
      InOrderIsDisciplined(p.inside, Rank(p.lock), [Free(p.lock)] + later, held[p.lock := p.mode]);
      var body := Ops(p.inside, [Free(p.lock)] + later);
      assert ([Take(p.lock, p.mode)] + body)[1..] == body;
    }
  }

  lemma HandlersAreDisciplined(h: Handler)
    ensures Disciplined(Ops(PlanOf(h), []), map[])
  {
    assert InOrder(PlanOf(h), -1);
    InOrderIsDisciplined(PlanOf(h), -1, [], map[]);
  }

  // ----- The machine -----

  datatype Move =
    | Start(t: ID, rest: seq<Op>)
    | Branch(t: ID, rest: seq<Op>)
    | Ask(t: ID)
    | Grant(l: Lock)
    | Release(t: ID)

  function Queue(s: State, l: Lock): seq<ID> {
    if l in s.queues then s.queues[l] else []
  }

  function Holders(s: State, l: Lock): set<ID> {
    set t | t in s.tasks && l in s.tasks[t].held
  }

  ghost predicate Admits(s: State, connections: nat, l: Lock, mode: Mode) {
    if l == Pool then |Holders(s, l)| < connections
    else if mode == Shared then forall t | t in Holders(s, l) :: s.tasks[t].held[l] == Shared
    else Holders(s, l) == {}
  }

  predicate Wants(task: Task, l: Lock) {
    task.waiting && task.rest != [] && task.rest[0].Take? && task.rest[0].lock == l
  }

  /** A task not waiting may go on along any disciplined path: an early return, or the next round of a loop. */
  ghost predicate Enabled(s: State, connections: nat, m: Move) {
    match m
    case Start(t, rest) => t !in s.tasks && Disciplined(rest, map[])
    case Branch(t, rest) => t in s.tasks && !s.tasks[t].waiting && Disciplined(rest, s.tasks[t].held)
    case Ask(t) => t in s.tasks && !s.tasks[t].waiting && s.tasks[t].rest != [] && s.tasks[t].rest[0].Take?
    case Grant(l) =>
      var q := Queue(s, l);
      q != [] && q[0] in s.tasks && Wants(s.tasks[q[0]], l) && Admits(s, connections, l, s.tasks[q[0]].rest[0].mode)
    case Release(t) => t in s.tasks && !s.tasks[t].waiting && s.tasks[t].rest != [] && s.tasks[t].rest[0].Free?
  }

  function Next(s: State, connections: nat, m: Move): State
    requires Enabled(s, connections, m)
  {
    match m
    case Start(t, rest) => s.(tasks := s.tasks[t := Task(rest, map[], false)])
    case Branch(t, rest) => s.(tasks := s.tasks[t := s.tasks[t].(rest := rest)])
    case Ask(t) =>
      var l := s.tasks[t].rest[0].lock;
      State(s.tasks[t := s.tasks[t].(waiting := true)], s.queues[l := Queue(s, l) + [t]])
    case Grant(l) =>
      var t := Queue(s, l)[0];
      var task := s.tasks[t];
      State(s.tasks[t := Task(task.rest[1..], task.held[l := task.rest[0].mode], false)],
        s.queues[l := Queue(s, l)[1..]])
    case Release(t) =>
      var task := s.tasks[t];
      s.(tasks := s.tasks[t := Task(task.rest[1..], task.held - {task.rest[0].lock}, false)])
  }

  ghost predicate QueueOk(s: State, l: Lock) {
    && (forall t | t in Queue(s, l) :: t in s.tasks && Wants(s.tasks[t], l))
    && (forall i, j | 0 <= i < j < |Queue(s, l)| :: Queue(s, l)[i] != Queue(s, l)[j])
  }

  ghost predicate TaskOk(s: State, t: ID)
    requires t in s.tasks
  {
    var task := s.tasks[t];
    && Disciplined(task.rest, task.held)
    && (task.waiting ==> task.rest != [] && task.rest[0].Take? && t in Queue(s, task.rest[0].lock))
  }

  /** Writers are alone, and the pool is never overdrawn. */
  ghost predicate HoldersOk(s: State, connections: nat, l: Lock) {
    && (l != Pool ==> forall t, o | t in Holders(s, l) && o in Holders(s, l) && t != o :: s.tasks[t].held[l] == Shared)
    && (l == Pool ==> |Holders(s, l)| <= connections)
  }

  ghost predicate Ok(s: State, connections: nat) {
    && (forall t | t in s.tasks :: TaskOk(s, t))
    && (forall l: Lock :: QueueOk(s, l))
    && (forall l: Lock :: HoldersOk(s, connections, l))
  }

  lemma TasksStayOk(s: State, connections: nat, m: Move)
    requires Ok(s, connections) && Enabled(s, connections, m)
    ensures var s' := Next(s, connections, m); forall t | t in s'.tasks :: TaskOk(s', t)
  {
    hide HoldersOk, Admits;
    var s' := Next(s, connections, m);
    forall t | t in s'.tasks ensures TaskOk(s', t) {
      if t in s.tasks { assert TaskOk(s, t); }
      if m.Grant? { assert QueueOk(s, m.l); }
    }
  }

  lemma QueueAfter(s: State, connections: nat, m: Move, l: Lock)
    requires Enabled(s, connections, m)
    ensures Queue(Next(s, connections, m), l) ==
            if m == Grant(l) then Queue(s, l)[1..]
            else if m.Ask? && s.tasks[m.t].rest[0].lock == l then Queue(s, l) + [m.t]
            else Queue(s, l)
  {
    hide Admits, Disciplined;
  }

  /** Only whoever moves comes to want a lock, or ceases to. */
  lemma WantsAfter(s: State, connections: nat, m: Move, l: Lock, t: ID)
    requires Enabled(s, connections, m) && t in s.tasks
    ensures var s' := Next(s, connections, m);
            && t in s'.tasks
            && (Wants(s'.tasks[t], l) <==>
                if m.Grant? && t == Queue(s, m.l)[0] then false
                else Wants(s.tasks[t], l) || (m == Ask(t) && s.tasks[t].rest[0].lock == l))
  {
    hide Admits, Disciplined;
  }

  lemma QueuesStayOk(s: State, connections: nat, m: Move, l: Lock)
    requires Ok(s, connections) && Enabled(s, connections, m)
    ensures QueueOk(Next(s, connections, m), l)
  {
    hide HoldersOk, TaskOk, Admits, Disciplined, Next, Queue;
    assert QueueOk(s, l);
    QueueAfter(s, connections, m, l);
    var q := Queue(Next(s, connections, m), l);
    forall t | t in q ensures t in s.tasks && t in Next(s, connections, m).tasks
      && Wants(Next(s, connections, m).tasks[t], l) {
      assert t in Queue(s, l) || m == Ask(t);
      WantsAfter(s, connections, m, l, t);
    }
  }

  lemma HoldersAfter(s: State, connections: nat, m: Move, l: Lock)
    requires Enabled(s, connections, m) && forall t | t in s.tasks :: TaskOk(s, t)
    ensures Holders(Next(s, connections, m), l) ==
            if m == Grant(l) then Holders(s, l) + {Queue(s, l)[0]}
            else if m.Release? && s.tasks[m.t].rest[0].lock == l then Holders(s, l) - {m.t}
            else Holders(s, l)
  {
    hide Admits;
  }

  lemma HoldersStayOk(s: State, connections: nat, m: Move, l: Lock)
    requires Ok(s, connections) && Enabled(s, connections, m)
    ensures HoldersOk(Next(s, connections, m), connections, l)
  {
    HoldersAfter(s, connections, m, l);
    assert HoldersOk(s, connections, l);
    if l == Pool {
      hide Next, QueueOk, TaskOk;
    } else {
      ModesAfter(s, connections, m, l);
      hide Next, QueueOk, TaskOk, Queue, Holders;
    }
  }

  /** Who still holds a lock holds it as before; who is new was admitted. */
  lemma ModesAfter(s: State, connections: nat, m: Move, l: Lock)
    requires Enabled(s, connections, m) && forall t | t in s.tasks :: TaskOk(s, t)
    ensures var s' := Next(s, connections, m);
            forall t | t in Holders(s', l) ::
              && t in s'.tasks && l in s'.tasks[t].held
              && if m == Grant(l) && t == Queue(s, l)[0] then s'.tasks[t].held[l] == s.tasks[t].rest[0].mode
                 else t in Holders(s, l) && s'.tasks[t].held[l] == s.tasks[t].held[l]
  {
    hide Admits;
  }

  lemma StaysOk(s: State, connections: nat, m: Move)
    requires Ok(s, connections) && Enabled(s, connections, m)
    ensures Ok(Next(s, connections, m), connections)
  {
    hide Enabled, Next, QueueOk, HoldersOk, TaskOk;
    TasksStayOk(s, connections, m);
    forall l: Lock ensures QueueOk(Next(s, connections, m), l) && HoldersOk(Next(s, connections, m), connections, l) {
      QueuesStayOk(s, connections, m, l);
      HoldersStayOk(s, connections, m, l);
    }
  }

  // ----- No circular wait -----

  /** A waiting task waits for whoever holds its lock and whoever came for it before. */
  ghost predicate WaitsFor(s: State, t: ID, o: ID) {
    && t in s.tasks && o in s.tasks
    && exists l: Lock :: Wants(s.tasks[t], l) && (l in s.tasks[o].held || Ahead(Queue(s, l), o, t))
  }

  ghost predicate Ahead(q: seq<ID>, o: ID, t: ID) {
    exists i, j | 0 <= i < j < |q| :: q[i] == o && q[j] == t
  }

  /** The lock a waiting task waits for. */
  function Wanted(task: Task): Lock
    requires task.waiting && task.rest != [] && task.rest[0].Take?
  {
    task.rest[0].lock
  }

  /** `o` waits for a lock of higher rank than `t` does, or earlier in the same queue. */
  ghost predicate Further(s: State, t: ID, o: ID) {
    && t in s.tasks && o in s.tasks
    && s.tasks[t].waiting && s.tasks[t].rest != [] && s.tasks[t].rest[0].Take?
    && s.tasks[o].waiting && s.tasks[o].rest != [] && s.tasks[o].rest[0].Take?
    && var l, k := Wanted(s.tasks[t]), Wanted(s.tasks[o]);
       Rank(l) < Rank(k) || (l == k && Ahead(Queue(s, l), o, t))
  }

  lemma WaitingGoesFurther(s: State, connections: nat, t: ID, o: ID)
    requires Ok(s, connections) && WaitsFor(s, t, o) && s.tasks[o].waiting
    ensures Further(s, t, o)
  {
    var l: Lock :| Wants(s.tasks[t], l) && (l in s.tasks[o].held || Ahead(Queue(s, l), o, t));
    assert TaskOk(s, t) && TaskOk(s, o) && QueueOk(s, l);
  }

  lemma FurtherIsTransitive(s: State, connections: nat, a: ID, b: ID, c: ID)
    requires Ok(s, connections) && Further(s, a, b) && Further(s, b, c)
    ensures Further(s, a, c)
  {
    hide Disciplined, HoldersOk;
    var l := Wanted(s.tasks[a]);
    if l == Wanted(s.tasks[b]) == Wanted(s.tasks[c]) {
      var q := Queue(s, l);
      assert QueueOk(s, l);
      var i, j :| 0 <= i < j < |q| && q[i] == b && q[j] == a;
      var h, k :| 0 <= h < k < |q| && q[h] == c && q[k] == b;
      assert k == i;
    }
  }

  lemma NobodyGoesFurtherThanThemselves(s: State, connections: nat, t: ID)
    requires Ok(s, connections)
    ensures !Further(s, t, t)
  {
    hide Disciplined, HoldersOk;
    if t in s.tasks && s.tasks[t].waiting && s.tasks[t].rest != [] && s.tasks[t].rest[0].Take? {
      assert QueueOk(s, Wanted(s.tasks[t]));
    }
  }

  /** Each in the sequence waits for the next. */
  ghost predicate Chain(s: State, ts: seq<ID>) {
    forall i | 0 <= i < |ts| - 1 :: WaitsFor(s, ts[i], ts[i + 1])
  }

  lemma {:induction false} ChainGoesFurther(s: State, connections: nat, ts: seq<ID>)
    requires Ok(s, connections) && |ts| >= 2 && Chain(s, ts) && ts[|ts| - 1] in s.tasks && s.tasks[ts[|ts| - 1]].waiting
    ensures Further(s, ts[0], ts[|ts| - 1])
  {
    var before := ts[..|ts| - 1];
    assert WaitsFor(s, ts[|ts| - 2], ts[|ts| - 2 + 1]);
    WaitingGoesFurther(s, connections, ts[|ts| - 2], ts[|ts| - 1]);
    if |ts| > 2 {
      assert Chain(s, before) by {
        forall i | 0 <= i < |before| - 1 ensures WaitsFor(s, before[i], before[i + 1]) {
          assert WaitsFor(s, ts[i], ts[i + 1]);
        }
      }
      ChainGoesFurther(s, connections, before);
      FurtherIsTransitive(s, connections, ts[0], ts[|ts| - 2], ts[|ts| - 1]);
    }
  }

  // ----- The results -----

  ghost predicate IsRun(states: seq<State>, moves: seq<Move>, connections: nat) {
    && |states| == |moves| + 1 && states[0] == IDLE
    && forall i | 0 <= i < |moves| ::
         Enabled(states[i], connections, moves[i]) && states[i + 1] == Next(states[i], connections, moves[i])
  }

  lemma {:induction false} RunsAreOk(states: seq<State>, moves: seq<Move>, connections: nat, i: nat)
    requires IsRun(states, moves, connections) && i < |states|
    ensures Ok(states[i], connections)
  {
    if i == 0 {
      assert forall l: Lock :: Queue(IDLE, l) == [] && Holders(IDLE, l) == {};
    } else {
      RunsAreOk(states, moves, connections, i - 1);
      assert states[i - 1 + 1] == states[i];
      StaysOk(states[i - 1], connections, moves[i - 1]);
    }
  }

  /** In no reachable state is there a circle of tasks, each waiting for the next. */
  lemma NoCircularWait(states: seq<State>, moves: seq<Move>, connections: nat, i: nat, ts: seq<ID>)
    requires IsRun(states, moves, connections) && i < |states|
    requires |ts| >= 2 && ts[0] == ts[|ts| - 1]
    ensures !Chain(states[i], ts)
  {
    RunsAreOk(states, moves, connections, i);
    var s := states[i];
    if Chain(s, ts) {
      assert WaitsFor(s, ts[0], ts[0 + 1]);
      ChainGoesFurther(s, connections, ts);
      NobodyGoesFurtherThanThemselves(s, connections, ts[0]);
    }
  }

  /** Someone at or beyond the lock `t` waits for can go on. */
  lemma {:induction false} SomeoneCanGoOn(s: State, connections: nat, t: ID) returns (m: Move)
    requires Ok(s, connections) && connections > 0 && t in s.tasks && s.tasks[t].rest != []
    ensures Enabled(s, connections, m) && (m.Ask? || m.Grant? || m.Release?)
    decreases if s.tasks[t].waiting && s.tasks[t].rest[0].Take? then 5 - Rank(s.tasks[t].rest[0].lock) else 6
  {
    var task := s.tasks[t];
    assert TaskOk(s, t);
    if !task.waiting {
      return if task.rest[0].Take? then Ask(t) else Release(t);
    }
    var l := task.rest[0].lock;
    var head := Queue(s, l)[0];
    assert QueueOk(s, l);
    if Admits(s, connections, l, s.tasks[head].rest[0].mode) {
      return Grant(l);
    }
    assert Holders(s, l) != {};
    var o :| o in Holders(s, l);
    assert TaskOk(s, o);
    if !s.tasks[o].waiting {
      return if s.tasks[o].rest[0].Take? then Ask(o) else Release(o);
    }
    m := SomeoneCanGoOn(s, connections, o);
  }

  /** With at least one connection in the pool, whenever a task has something left to do, in any reachable state and
      with any number of tasks, some task takes a lock, frees one, or goes to wait for one. */
  lemma NoDeadlock(states: seq<State>, moves: seq<Move>, connections: nat, i: nat, t: ID)
    requires IsRun(states, moves, connections) && i < |states| && connections > 0
    requires t in states[i].tasks && states[i].tasks[t].rest != []
    ensures exists m :: Enabled(states[i], connections, m) && (m.Ask? || m.Grant? || m.Release?)
  {
    RunsAreOk(states, moves, connections, i);
    var m := SomeoneCanGoOn(states[i], connections, t);
  }

  /** What the locks are for: whoever holds a map or `init_lock` exclusively is alone with it. */
  lemma WritersAreAlone(states: seq<State>, moves: seq<Move>, connections: nat, i: nat, l: Lock, t: ID, o: ID)
    requires IsRun(states, moves, connections) && i < |states| && l != Pool
    requires t in states[i].tasks && l in states[i].tasks[t].held && states[i].tasks[t].held[l] == Exclusive
    requires o in states[i].tasks && l in states[i].tasks[o].held
    ensures t == o
  {
    RunsAreOk(states, moves, connections, i);
    var s := states[i];
    assert HoldersOk(s, connections, l);
    assert t in Holders(s, l) && o in Holders(s, l);
  }
}
