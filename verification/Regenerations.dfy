/** When the three places that keep a user's token agree, under any interleaving: the table, the users map, and the
    token map.

    A regeneration commits its new token to the table, renames the cached user, and swaps the tokens in the token
    map, each in a step of its own. Any number of them may be under way for one user, among any other requests. */
module Regenerations {
  import opened Base
  import opened Models
  import opened Device
  import opened Memory
  import opened Tables
  import opened Registry
  import opened Concurrent
  import opened Issued
  import opened SwapOrder
  import SoleAdmin
  import Ledger
  import Runs

  /** The tokens the token map accepts for a user. */
  function Accepted(m: Mem, u: ID): set<string> {
    set t | t in m.tokens && m.tokens[t] == u
  }

  predicate Known(s: Server, u: ID) {
    u in s.books.db.users && u in s.mem.users
  }

  function StoredToken(s: Server, u: ID): string
    requires Known(s, u)
  {
    s.books.db.users[u].accessToken
  }

  function CachedToken(s: Server, u: ID): string
    requires Known(s, u)
  {
    s.mem.users[u].user.accessToken
  }

  /** Table and map keep the same token, and it is the one accepted. */
  predicate InAgreement(s: Server, u: ID) {
    Known(s, u) && StoredToken(s, u) == CachedToken(s, u) && Accepted(s.mem, u) == {CachedToken(s, u)}
  }

  /** No regeneration of the user is between its commit and its end. */
  ghost predicate Settled(tasks: map<ID, Task>, u: ID) {
    forall t | t in tasks :: !UnderWay(tasks[t], u)
  }

  predicate UnderWay(task: Task, u: ID) {
    (task.Renaming? || task.Swapping?) && task.uid == u
  }

  // ----- What a run does to the three -----

  /** Steps that enter or remove the user, or restart the server. */
  predicate Upsets(s: Server, e: Move, u: ID) {
    match e
    case Crash(_) => true
    case Act(t, _) =>
      t in s.tasks &&
      (match s.tasks[t]
       case AddingToken(st, _) => st.user.id == u
       case AddingUser(st, _) => st.user.id == u
       case DeletingUser(target, _) => target == u
       case DroppingUser(target, _) => target == u
       case DroppingToken(token, _) => Belongs(s.issued, token, u)
       case _ => false)
    case _ => false
  }

  ghost predicate Undisturbed(s: Server, es: seq<Move>, u: ID) {
    es == []
    || (Undisturbed(s, es[..|es| - 1], u) && !Upsets(After(s, es[..|es| - 1]), es[|es| - 1], u))
  }

  function CommitAt(s: Server, e: Move, u: ID): seq<string> {
    if e.Act? && e.t in s.tasks && s.tasks[e.t] == Serving(u, AskToken) && !e.x.fails then [e.x.token] else []
  }

  function RenameAt(s: Server, e: Move, u: ID): seq<string> {
    if e.Act? && e.t in s.tasks && s.tasks[e.t].Renaming? && s.tasks[e.t].uid == u && u in s.mem.users
    then [s.tasks[e.t].token] else []
  }

  function SwapAt(s: Server, e: Move, u: ID): seq<string> {
    if e.Act? && e.t in s.tasks && s.tasks[e.t].Swapping? && s.tasks[e.t].uid == u then [s.tasks[e.t].token] else []
  }

  /** The new tokens of the user in the order of their commits, of the renamings, and of the swaps. */
  function Commits(s: Server, es: seq<Move>, u: ID): seq<string> {
    Runs.Output(Next, (s: Server, e: Move) => CommitAt(s, e, u), s, es)
  }

  function Renames(s: Server, es: seq<Move>, u: ID): seq<string> {
    Runs.Output(Next, (s: Server, e: Move) => RenameAt(s, e, u), s, es)
  }

  function Swaps(s: Server, es: seq<Move>, u: ID): seq<string> {
    Runs.Output(Next, (s: Server, e: Move) => SwapAt(s, e, u), s, es)
  }

  // ----- One step -----

  lemma StoredAfter(s: Server, e: Move, u: ID)
    requires Allowed(s, e) && !Upsets(s, e, u) && SoleAdmin.OwnAccounts(s.books.db) && Known(s, u)
    ensures var users := Next(s, e).books.db.users;
            && u in users
            && users[u].accessToken == LastOr(s.books.db.users[u].accessToken, CommitAt(s, e, u))
  {
    hide SoleAdmin.OwnAccounts;
    if e.Act? {
      TxOfStep(s.books.db, s.mem, s.tasks[e.t], e.x, u);
      hide Perform;
      var f := Perform(s.books.db, s.mem, s.tasks[e.t], e.x);
      if f.tx.Some? { CommitKeepsToken(s.books, f.tx.value, u); }
    }
  }

  /** Which transactions a step can commit that bear on the user. */
  lemma TxOfStep(db: Db, m: Mem, task: Task, x: Env, u: ID)
    ensures var tx := Perform(db, m, task, x).tx;
            && (task == Serving(u, AskToken) && !x.fails ==> tx == Some(Ledger.NewToken(u, x.token)))
            && (tx.Some? && tx.value.NewToken? && tx.value.uid == u ==> task == Serving(u, AskToken) && !x.fails)
            && (tx.Some? && tx.value.RemoveUser? ==> task.DeletingUser? && task.target == tx.value.uid)
            && (tx.Some? && tx.value.AddState? ==> CreateState(db, tx.value.st, tx.value.invite).Ok?)
  {
    hide UpdateSettingsRow, DeleteUser, DeleteInvite, CreateInvite, UnusedOf, CreateState, Prepared, Step, Refused,
      Rejection;
    if CreatesUser(task) {
      hide Entering, Following;
    } else if EntersGuards(task) {
      hide Creating, Following;
    } else {
      hide Creating, Entering;
    }
  }

  lemma CommitKeepsToken(b: Ledger.Books, tx: Ledger.Tx, u: ID)
    requires u in b.db.users && SoleAdmin.OwnAccounts(b.db)
    requires tx.RemoveUser? ==> tx.uid != u
    requires tx.AddState? ==> CreateState(b.db, tx.st, tx.invite).Ok?
    ensures var users := Ledger.Commit(b, tx).db.users;
            && u in users
            && users[u].accessToken == if tx.NewToken? && tx.uid == u then tx.token else b.db.users[u].accessToken
  {
    hide SoleAdmin.OwnAccounts, SettingsInTable;
    match tx
    case RemoveUser(target) => if target in b.db.users { SoleAdmin.OnlyTheTargetGoes(b.db, target); }
    case NewSettings(uid, req) => if uid in b.db.users { SettingsKeepToken(b.db.users[uid], req); }
    case _ =>
  }

  /** What is needed of a step so that it bears on the user's tokens only as a regeneration of theirs. */
  predicate Spares(task: Task, issued: map<string, ID>, u: ID) {
    match task
    case AddingToken(st, _) => st.user.id != u && Belongs(issued, st.user.accessToken, st.user.id)
    case AddingUser(st, _) => st.user.id != u
    case DroppingUser(target, _) => target != u
    case DroppingToken(token, _) => !Belongs(issued, token, u)
    case Swapping(uid, was, token) => Belongs(issued, was, uid) && Belongs(issued, token, uid)
    case _ => true
  }

  lemma CachedAfter(db: Db, m: Mem, task: Task, x: Env, issued: map<string, ID>, u: ID)
    requires Spares(task, issued, u) && u in m.users
    ensures var users := Perform(db, m, task, x).mem.users;
            && u in users
            && users[u].user.accessToken
               == if task.Renaming? && task.uid == u then task.token else m.users[u].user.accessToken
  {
    if CreatesUser(task) {
      hide Entering, Following, CreateState, Prepared;
    } else if EntersGuards(task) {
      hide Creating, Following, Step, Refused, DeleteInvite, UpdateSettingsRow, UnusedOf;
      StepKeepsToken(m.users[u], Device.Event.Ping(x.now, x.at));
      StepKeepsToken(m.users[u], Device.Event.Pause(x.at));
      StepKeepsToken(m.users[u], Device.Event.Unpause(x.at));
    } else {
      CachedAfterLater(db, m, task, x, issued, u);
    }
  }

  lemma CachedAfterLater(db: Db, m: Mem, task: Task, x: Env, issued: map<string, ID>, u: ID)
    requires !CreatesUser(task) && !EntersGuards(task) && Spares(task, issued, u) && u in m.users
    ensures var users := Perform(db, m, task, x).mem.users;
            && u in users
            && users[u].user.accessToken
               == if task.Renaming? && task.uid == u then task.token else m.users[u].user.accessToken
  {
    hide Creating, Entering, Step, DeleteUser, CreateInvite, DropInvites, HasInvite;
    KeepsUsers(m);
    if task.Adopting? {
      StepKeepsToken(m.users[u], Device.Event.Settings(task.req, x.at));
    }
  }

  lemma KeepsUsers(m: Mem)
    ensures forall ids :: DropInvites(m, ids).users == m.users
  {
  }

  lemma AcceptedAfterStep(db: Db, m: Mem, task: Task, x: Env, issued: map<string, ID>, u: ID)
    requires Spares(task, issued, u) && AcceptedOk(m.tokens, issued)
    ensures Accepted(Perform(db, m, task, x).mem, u)
         == if task.Swapping? && task.uid == u then Accepted(m, u) - {task.was} + {task.token} else Accepted(m, u)
  {
    var m' := Perform(db, m, task, x).mem;
    TokenMapAfter(db, m, task, x);
    hide Perform;
    match task
    case AddingToken(st, _) =>
      assert m'.tokens == m.tokens[st.user.accessToken := st.user.id];
    case DroppingToken(token, _) =>
      assert m'.tokens == m.tokens - {token};
    case Swapping(uid, was, token) =>
      assert m'.tokens == (m.tokens - {was})[token := uid];
    case _ =>
      assert m'.tokens == m.tokens;
  }

  /** Three kinds of steps write the token map. */
  lemma TokenMapAfter(db: Db, m: Mem, task: Task, x: Env)
    ensures Perform(db, m, task, x).mem.tokens ==
            match task
            case AddingToken(st, _) => m.tokens[st.user.accessToken := st.user.id]
            case DroppingToken(token, _) => m.tokens - {token}
            case Swapping(uid, was, token) => (m.tokens - {was})[token := uid]
            case _ => m.tokens
  {
    if CreatesUser(task) {
      hide Entering, Following, CreateState, Prepared;
    } else if EntersGuards(task) {
      hide Creating, Following, UpdateSettingsRow, DeleteInvite, UnusedOf, Step, Refused;
    } else {
      TokenMapAfterLater(db, m, task, x);
    }
  }

  lemma TokenMapAfterLater(db: Db, m: Mem, task: Task, x: Env)
    requires !CreatesUser(task) && !EntersGuards(task)
    ensures Perform(db, m, task, x).mem.tokens ==
            match task
            case DroppingToken(token, _) => m.tokens - {token}
            case Swapping(uid, was, token) => (m.tokens - {was})[token := uid]
            case _ => m.tokens
  {
    hide Creating, Entering, DeleteUser, CreateInvite, Step, HasInvite;
  }

  /** How a regeneration goes on. */
  lemma NextOfStep(db: Db, m: Mem, task: Task, x: Env, u: ID)
    ensures var next := Perform(db, m, task, x).next;
            next.Some? && UnderWay(next.value, u) ==>
              if next.value.Renaming?
              then task == Serving(u, AskToken) && !x.fails && next.value == Renaming(u, x.token)
              else task.Renaming? && task.uid == u && u in m.users
                   && next.value == Swapping(u, m.users[u].user.accessToken, task.token)
    ensures var next := Perform(db, m, task, x).next;
            && (task == Serving(u, AskToken) && !x.fails ==> next == Some(Renaming(u, x.token)))
            && (task.Renaming? && task.uid == u && u in m.users ==>
                  next == Some(Swapping(u, m.users[u].user.accessToken, task.token)))
            && (task.Swapping? && task.uid == u ==> next == None)
  {
    hide UpdateSettingsRow, DeleteUser, DeleteInvite, CreateInvite, UnusedOf, CreateState, Prepared, Step, Refused,
      Rejection;
    if CreatesUser(task) {
      hide Entering, Following;
    } else if EntersGuards(task) {
      hide Creating, Following;
    } else {
      hide Creating, Entering;
    }
  }

  // ----- The books of a run -----

  ghost predicate Nested(first: string, commits: seq<string>, renames: seq<string>, swaps: seq<string>) {
    && Distinct(commits) && Distinct(renames) && Distinct(swaps) && first !in commits
    && (forall c | c in renames :: c in commits) && (forall c | c in swaps :: c in renames)
  }

  /** Each regeneration under way has done what its task says, and none is lost. */
  ghost predicate Entered(
      tasks: map<ID, Task>, u: ID, first: string, commits: seq<string>, renames: seq<string>, swaps: seq<string>) {
    && (forall c | c in commits :: c in renames || exists t | t in tasks :: tasks[t] == Renaming(u, c))
    && (forall c | c in renames ::
          c in swaps || exists t | t in tasks :: tasks[t] == Swapping(u, Replaced(first, renames, c), c))
    && (forall t | t in tasks && UnderWay(tasks[t], u) ::
          if tasks[t].Renaming? then tasks[t].token in commits && tasks[t].token !in renames
          else tasks[t].token in renames && tasks[t].token !in swaps
               && tasks[t].was == Replaced(first, renames, tasks[t].token))
    && (forall t, o | t in tasks && o in tasks && t != o && UnderWay(tasks[t], u) && UnderWay(tasks[o], u) ::
          tasks[t].token != tasks[o].token)
  }

  lemma CommitEnters(tasks: map<ID, Task>, u: ID, first: string, commits: seq<string>, renames: seq<string>,
                     swaps: seq<string>, t: ID, token: string)
    requires Nested(first, commits, renames, swaps) && Entered(tasks, u, first, commits, renames, swaps)
    requires t in tasks && !UnderWay(tasks[t], u) && token !in commits && token != first
    ensures Nested(first, commits + [token], renames, swaps)
    ensures Entered(tasks[t := Renaming(u, token)], u, first, commits + [token], renames, swaps)
  {
    var tasks' := tasks[t := Renaming(u, token)];
    forall c | c in commits + [token] ensures c in renames || exists o | o in tasks' :: tasks'[o] == Renaming(u, c) {
      if c == token {
        assert tasks'[t] == Renaming(u, c);
      } else if c !in renames {
        var o :| o in tasks && tasks[o] == Renaming(u, c);
        assert tasks'[o] == Renaming(u, c);
      }
    }
    forall c | c in renames
      ensures c in swaps || exists o | o in tasks' :: tasks'[o] == Swapping(u, Replaced(first, renames, c), c)
    {
      if c !in swaps {
        var o :| o in tasks && tasks[o] == Swapping(u, Replaced(first, renames, c), c);
        assert tasks'[o] == tasks[o];
      }
    }
  }

  lemma RenameEnters(tasks: map<ID, Task>, u: ID, first: string, commits: seq<string>, renames: seq<string>,
                     swaps: seq<string>, t: ID, token: string)
    requires Nested(first, commits, renames, swaps) && Entered(tasks, u, first, commits, renames, swaps)
    requires t in tasks && tasks[t] == Renaming(u, token)
    ensures Nested(first, commits, renames + [token], swaps) && token !in renames
    ensures Entered(tasks[t := Swapping(u, LastOr(first, renames), token)], u, first, commits, renames + [token], swaps)
  {
    var tasks' := tasks[t := Swapping(u, LastOr(first, renames), token)];
    var renames' := renames + [token];
    assert renames'[..|renames|] == renames;
    assert UnderWay(tasks[t], u);
    forall c | c in renames ensures Replaced(first, renames', c) == Replaced(first, renames, c) {
      ReplacedStays(first, renames, token, c);
    }
    forall c | c in commits ensures c in renames' || exists o | o in tasks' :: tasks'[o] == Renaming(u, c) {
      if c !in renames' {
        var o :| o in tasks && tasks[o] == Renaming(u, c);
        assert tasks'[o] == Renaming(u, c);
      }
    }
    forall c | c in renames'
      ensures c in swaps || exists o | o in tasks' :: tasks'[o] == Swapping(u, Replaced(first, renames', c), c)
    {
      if c == token {
        assert tasks'[t] == Swapping(u, Replaced(first, renames', c), c);
      } else if c !in swaps {
        var o :| o in tasks && tasks[o] == Swapping(u, Replaced(first, renames, c), c);
        assert tasks'[o] == tasks[o];
      }
    }
  }

  lemma SwapEnters(tasks: map<ID, Task>, u: ID, first: string, commits: seq<string>, renames: seq<string>,
                   swaps: seq<string>, t: ID, was: string, token: string)
    requires Nested(first, commits, renames, swaps) && Entered(tasks, u, first, commits, renames, swaps)
    requires t in tasks && tasks[t] == Swapping(u, was, token)
    ensures Nested(first, commits, renames, swaps + [token]) && was == Replaced(first, renames, token)
    ensures Entered(tasks - {t}, u, first, commits, renames, swaps + [token])
  {
    var tasks' := tasks - {t};
    assert UnderWay(tasks[t], u);
    forall c | c in commits ensures c in renames || exists o | o in tasks' :: tasks'[o] == Renaming(u, c) {
      if c !in renames {
        var o :| o in tasks && tasks[o] == Renaming(u, c);
        assert tasks'[o] == Renaming(u, c);
      }
    }
    forall c | c in renames
      ensures c in swaps + [token] || exists o | o in tasks' :: tasks'[o] == Swapping(u, Replaced(first, renames, c), c)
    {
      if c !in swaps + [token] {
        var o :| o in tasks && tasks[o] == Swapping(u, Replaced(first, renames, c), c);
        assert tasks'[o] == tasks[o];
      }
    }
  }

  /** Tasks that are no regeneration of this user come, go on and end. */
  lemma OthersEnterNothing(tasks: map<ID, Task>, tasks': map<ID, Task>, u: ID, first: string, commits: seq<string>,
                           renames: seq<string>, swaps: seq<string>)
    requires Entered(tasks, u, first, commits, renames, swaps)
    requires forall t | t in tasks && UnderWay(tasks[t], u) :: t in tasks' && tasks'[t] == tasks[t]
    requires forall t | t in tasks' && UnderWay(tasks'[t], u) :: t in tasks && tasks'[t] == tasks[t]
    ensures Entered(tasks', u, first, commits, renames, swaps)
  {
    forall c | c in commits ensures c in renames || exists o | o in tasks' :: tasks'[o] == Renaming(u, c) {
      if c !in renames {
        var o :| o in tasks && tasks[o] == Renaming(u, c);
        assert UnderWay(tasks[o], u);
        assert tasks'[o] == Renaming(u, c);
      }
    }
    forall c | c in renames
      ensures c in swaps || exists o | o in tasks' :: tasks'[o] == Swapping(u, Replaced(first, renames, c), c)
    {
      if c !in swaps {
        var o :| o in tasks && tasks[o] == Swapping(u, Replaced(first, renames, c), c);
        assert UnderWay(tasks[o], u);
        assert tasks'[o] == tasks[o];
      }
    }
  }

  /** The books of the user's regenerations since all three places held `first`. */
  ghost predicate Booked(s: Server, u: ID, first: string, commits: seq<string>, renames: seq<string>,
                         swaps: seq<string>) {
    && Known(s, u) && first in s.issued && (forall c | c in commits :: c in s.issued)
    && Nested(first, commits, renames, swaps) && Entered(s.tasks, u, first, commits, renames, swaps)
    && StoredToken(s, u) == LastOr(first, commits) && CachedToken(s, u) == LastOr(first, renames)
    && Accepted(s.mem, u) == AcceptedAfter(first, renames, swaps)
  }

  lemma SparedByStep(s: Server, t: ID, x: Env, u: ID)
    requires IssuedOk(s) && t in s.tasks && !Upsets(s, Act(t, x), u)
    ensures Spares(s.tasks[t], s.issued, u)
  {
    assert CarriesIssued(s.tasks[t], s.issued);
  }

  lemma CachedNext(s: Server, e: Move, u: ID)
    requires IssuedOk(s) && Allowed(s, e) && !Upsets(s, e, u) && Known(s, u)
    ensures var users := Next(s, e).mem.users;
            u in users && users[u].user.accessToken == LastOr(CachedToken(s, u), RenameAt(s, e, u))
  {
    match e
    case Act(t, x) =>
      SparedByStep(s, t, x, u);
      CachedAfter(s.books.db, s.mem, s.tasks[t], x, s.issued, u);
    case ScanAll(_, now, clock, _) => StepKeepsToken(s.mem.users[u], Scan(now, clock(u)));
    case Arrive(_, _) =>
  }

  lemma AcceptedNext(s: Server, e: Move, u: ID)
    requires IssuedOk(s) && Allowed(s, e) && !Upsets(s, e, u)
    ensures Accepted(Next(s, e).mem, u)
         == if SwapAt(s, e, u) == [] then Accepted(s.mem, u)
            else Accepted(s.mem, u) - {s.tasks[e.t].was} + {s.tasks[e.t].token}
  {
    if e.Act? {
      SparedByStep(s, e.t, e.x, u);
      AcceptedAfterStep(s.books.db, s.mem, s.tasks[e.t], e.x, s.issued, u);
    }
  }

  /** Only its own step moves a regeneration on. */
  lemma TasksNext(s: Server, e: Move, u: ID)
    requires Allowed(s, e) && !Upsets(s, e, u) && Known(s, u)
    ensures var tasks := Next(s, e).tasks;
            if CommitAt(s, e, u) != [] then
              !UnderWay(s.tasks[e.t], u) && tasks == s.tasks[e.t := Renaming(u, e.x.token)]
            else if RenameAt(s, e, u) != [] then
              tasks == s.tasks[e.t := Swapping(u, CachedToken(s, u), s.tasks[e.t].token)]
            else if SwapAt(s, e, u) != [] then tasks == s.tasks - {e.t}
            else
              && (forall t | t in s.tasks && UnderWay(s.tasks[t], u) :: t in tasks && tasks[t] == s.tasks[t])
              && (forall t | t in tasks && UnderWay(tasks[t], u) :: t in s.tasks && tasks[t] == s.tasks[t])
  {
    if e.Act? {
      NextOfStep(s.books.db, s.mem, s.tasks[e.t], e.x, u);
      hide Perform;
    }
  }

  lemma FreshCommit(s: Server, e: Move, u: ID)
    requires Allowed(s, e) && CommitAt(s, e, u) != []
    ensures e.x.token !in s.issued && e.x.token in Next(s, e).issued
  {
    TxOfStep(s.books.db, s.mem, s.tasks[e.t], e.x, u);
    hide Perform;
  }

  lemma IssuedGrows(s: Server, e: Move, token: string)
    requires token in s.issued
    ensures token in Next(s, e).issued
  {
    hide Perform, Ledger.Commit;
  }

  lemma EnteredNext(s: Server, e: Move, u: ID, first: string, commits: seq<string>, renames: seq<string>,
                    swaps: seq<string>)
    requires Booked(s, u, first, commits, renames, swaps) && Allowed(s, e) && !Upsets(s, e, u)
    ensures Nested(first, commits + CommitAt(s, e, u), renames + RenameAt(s, e, u), swaps + SwapAt(s, e, u))
    ensures Entered(Next(s, e).tasks, u, first,
                    commits + CommitAt(s, e, u), renames + RenameAt(s, e, u), swaps + SwapAt(s, e, u))
    ensures RenameAt(s, e, u) != [] ==> s.tasks[e.t].token !in renames
    ensures SwapAt(s, e, u) != [] ==> s.tasks[e.t].was == Replaced(first, renames, s.tasks[e.t].token)
  {
    hide Next, Allowed, Nested, Entered, Accepted, AcceptedAfter, Upsets;
    TasksNext(s, e, u);
    assert commits + [] == commits && renames + [] == renames && swaps + [] == swaps;
    AtMostOneKind(s, e, u);
    if CommitAt(s, e, u) != [] {
      FreshCommit(s, e, u);
      CommitEnters(s.tasks, u, first, commits, renames, swaps, e.t, e.x.token);
    } else if RenameAt(s, e, u) != [] {
      RenameEnters(s.tasks, u, first, commits, renames, swaps, e.t, s.tasks[e.t].token);
    } else if SwapAt(s, e, u) != [] {
      SwapEnters(s.tasks, u, first, commits, renames, swaps, e.t, s.tasks[e.t].was, s.tasks[e.t].token);
    } else {
      OthersEnterNothing(s.tasks, Next(s, e).tasks, u, first, commits, renames, swaps);
    }
  }

  lemma AtMostOneKind(s: Server, e: Move, u: ID)
    ensures CommitAt(s, e, u) != [] ==> RenameAt(s, e, u) == [] && SwapAt(s, e, u) == []
    ensures RenameAt(s, e, u) != [] ==> SwapAt(s, e, u) == []
  {
  }

  lemma AcceptedBooked(s: Server, e: Move, u: ID, first: string, commits: seq<string>, renames: seq<string>,
                       swaps: seq<string>)
    requires Booked(s, u, first, commits, renames, swaps) && Allowed(s, e) && !Upsets(s, e, u) && IssuedOk(s)
    ensures Accepted(Next(s, e).mem, u)
         == AcceptedAfter(first, renames + RenameAt(s, e, u), swaps + SwapAt(s, e, u))
  {
    hide Next, Allowed, Entered, IssuedOk, Accepted;
    AcceptedNext(s, e, u);
    EnteredNext(s, e, u, first, commits, renames, swaps);
    assert renames + [] == renames && swaps + [] == swaps;
    if RenameAt(s, e, u) != [] {
      NestedSwaps(first, commits, renames, swaps);
      AcceptedStays(first, renames, s.tasks[e.t].token, swaps);
    } else if SwapAt(s, e, u) != [] {
      assert (swaps + [s.tasks[e.t].token])[..|swaps|] == swaps;
    }
  }

  lemma BookedNext(s: Server, e: Move, u: ID, first: string, commits: seq<string>, renames: seq<string>,
                   swaps: seq<string>)
    requires Booked(s, u, first, commits, renames, swaps) && Allowed(s, e) && !Upsets(s, e, u)
    requires IssuedOk(s) && SoleAdmin.OwnAccounts(s.books.db)
    ensures Booked(Next(s, e), u, first,
                   commits + CommitAt(s, e, u), renames + RenameAt(s, e, u), swaps + SwapAt(s, e, u))
  {
    hide Next, Allowed, Nested, Entered, IssuedOk, SoleAdmin.OwnAccounts, Accepted, AcceptedAfter, RenameAt, SwapAt;
    StoredAfter(s, e, u);
    CachedNext(s, e, u);
    AcceptedBooked(s, e, u, first, commits, renames, swaps);
    EnteredNext(s, e, u, first, commits, renames, swaps);
    IssuedGrows(s, e, first);
    forall c | c in commits ensures c in Next(s, e).issued {
      IssuedGrows(s, e, c);
    }
    if CommitAt(s, e, u) != [] { FreshCommit(s, e, u); }
  }

  lemma NestedSwaps(first: string, commits: seq<string>, renames: seq<string>, swaps: seq<string>)
    requires Nested(first, commits, renames, swaps)
    ensures forall c | c in swaps :: c in renames
  {
  }

  // ----- The results -----

  lemma SettledBooks(s: Server, u: ID)
    requires IssuedOk(s) && InAgreement(s, u) && Settled(s.tasks, u)
    ensures Booked(s, u, CachedToken(s, u), [], [], [])
  {
  }

  ghost predicate Sane(s: Server) {
    IssuedOk(s) && SoleAdmin.Orderly(s)
  }

  lemma SaneNext(s: Server, e: Move)
    requires Sane(s) && Allowed(s, e)
    ensures Sane(Next(s, e))
  {
    hide IssuedOk, SoleAdmin.Orderly, Next, Allowed;
    IssuedNext(s, e);
    SoleAdmin.OrderlyNext(s, e);
  }

  lemma AlwaysSane(es: seq<Move>)
    requires AllAllowed(COLD, es)
    ensures Sane(After(COLD, es))
  {
    hide IssuedOk, SoleAdmin.Orderly, Next, Allowed;
    AlwaysIssued(es);
    SoleAdmin.AlwaysOrderly(es);
  }

  lemma SaneAccounts(s: Server)
    requires Sane(s)
    ensures IssuedOk(s) && SoleAdmin.OwnAccounts(s.books.db)
  {
    hide IssuedOk;
  }

  lemma {:induction false} RunIsBooked(s: Server, es: seq<Move>, u: ID)
    requires Sane(s) && InAgreement(s, u) && Settled(s.tasks, u) && AllAllowed(s, es) && Undisturbed(s, es, u)
    ensures Sane(After(s, es))
    ensures Booked(After(s, es), u, CachedToken(s, u), Commits(s, es, u), Renames(s, es, u), Swaps(s, es, u))
  {
    hide Sane, Booked, Next, Allowed, Upsets, Settled, Accepted, CommitAt, RenameAt, SwapAt;
    if es == [] {
      SaneAccounts(s);
      SettledBooks(s, u);
    } else {
      var before, e := es[..|es| - 1], es[|es| - 1];
      RunIsBooked(s, before, u);
      SaneAccounts(After(s, before));
      BookedNext(After(s, before), e, u, CachedToken(s, u), Commits(s, before, u), Renames(s, before, u),
        Swaps(s, before, u));
      SaneNext(After(s, before), e);
    }
  }

  lemma SettledPermutes(s: Server, u: ID, first: string, commits: seq<string>, renames: seq<string>, swaps: seq<string>)
    requires Booked(s, u, first, commits, renames, swaps) && Settled(s.tasks, u)
    ensures Permutes(commits, renames) && Permutes(renames, swaps) && first !in renames
    ensures InAgreement(s, u) <==> LastOr(first, commits) == LastOr(first, renames) && swaps == renames
  {
    forall c | c in commits ensures c in renames {
      assert forall t | t in s.tasks :: s.tasks[t] == Renaming(u, c) ==> UnderWay(s.tasks[t], u);
    }
    forall c | c in renames ensures c in swaps {
      assert forall t | t in s.tasks :: s.tasks[t] == Swapping(u, Replaced(first, renames, c), c) ==>
        UnderWay(s.tasks[t], u);
    }
    OneTokenIffSameOrder(first, renames, swaps);
  }

  /** From agreement to the next moment with no regeneration of the user under way, among whatever other requests:
      table,
      map and token map agree on the user's token exactly when the last to commit was the last to rename and the
      swaps came in the order of the renamings; for two regenerations, exactly when all three orders are the same. */
  lemma {:induction false} TokensAgreeIffSameOrder(prior: seq<Move>, es: seq<Move>, u: ID)
    requires AllAllowed(COLD, prior)
    requires var s := After(COLD, prior);
             && InAgreement(s, u) && Settled(s.tasks, u)
             && AllAllowed(s, es) && Undisturbed(s, es, u) && Settled(After(s, es).tasks, u)
    ensures var s := After(COLD, prior);
            var first, commits, renames, swaps := CachedToken(s, u), Commits(s, es, u), Renames(s, es, u),
              Swaps(s, es, u);
            && (InAgreement(After(s, es), u) <==> LastOr(first, commits) == LastOr(first, renames) && swaps == renames)
            && |commits| == |renames| == |swaps|
            && (|commits| <= 2 ==> (InAgreement(After(s, es), u) <==> commits == renames == swaps))
  {
    hide Sane, Booked, Next, Allowed, AllAllowed, After, Undisturbed, Settled, Accepted, Commits, Renames, Swaps;
    var s := After(COLD, prior);
    AlwaysSane(prior);
    RunIsBooked(s, es, u);
    var first, commits, renames, swaps := CachedToken(s, u), Commits(s, es, u), Renames(s, es, u), Swaps(s, es, u);
    SettledPermutes(After(s, es), u, first, commits, renames, swaps);
    SameLength(commits, renames);
    SameLength(renames, swaps);
    if |commits| <= 2 { TwoWithTheSameEnd(commits, renames, first); }
  }

  lemma TwoWithTheSameEnd(a: seq<string>, b: seq<string>, first: string)
    requires Permutes(a, b) && |a| == |b| <= 2
    ensures LastOr(first, a) == LastOr(first, b) <==> a == b
  {
    if |a| == 2 {
      assert a[0] in b && a[1] in b && b[0] in a;
    } else if |a| == 1 {
      assert a[0] in b;
    }
  }

  // ----- One at a time -----

  /** The guard: the user's regenerations commit only while none of theirs is under way. */
  ghost predicate OneAtATime(s: Server, es: seq<Move>, u: ID) {
    es == []
    || (var before := es[..|es| - 1];
        && OneAtATime(s, before, u)
        && (CommitAt(After(s, before), es[|es| - 1], u) != [] ==> Settled(After(s, before).tasks, u)))
  }

  /** The last regeneration at most is short of its renaming or its swap. */
  predicate InStep(commits: seq<string>, renames: seq<string>, swaps: seq<string>) {
    && swaps <= renames <= commits
    && (|commits| <= |renames| + 1) && (|renames| <= |swaps| + 1) && (|commits| <= |swaps| + 1)
  }

  lemma SettledInStep(s: Server, u: ID, first: string, commits: seq<string>, renames: seq<string>, swaps: seq<string>)
    requires Booked(s, u, first, commits, renames, swaps) && Settled(s.tasks, u) && InStep(commits, renames, swaps)
    ensures commits == renames == swaps && InAgreement(s, u)
  {
    SettledPermutes(s, u, first, commits, renames, swaps);
    SameLength(commits, renames);
    SameLength(renames, swaps);
  }

  lemma StaysInStep(s: Server, e: Move, u: ID, first: string, commits: seq<string>, renames: seq<string>,
                    swaps: seq<string>)
    requires Booked(s, u, first, commits, renames, swaps) && InStep(commits, renames, swaps)
    requires CommitAt(s, e, u) != [] ==> Settled(s.tasks, u)
    ensures InStep(commits + CommitAt(s, e, u), renames + RenameAt(s, e, u), swaps + SwapAt(s, e, u))
  {
    if CommitAt(s, e, u) != [] {
      SettledInStep(s, u, first, commits, renames, swaps);
    } else if RenameAt(s, e, u) != [] {
      assert UnderWay(s.tasks[e.t], u);
      assert s.tasks[e.t].token in commits && s.tasks[e.t].token !in renames;
      assert commits == renames + [commits[|commits| - 1]];
    } else if SwapAt(s, e, u) != [] {
      assert UnderWay(s.tasks[e.t], u);
      assert s.tasks[e.t].token in renames && s.tasks[e.t].token !in swaps;
      assert renames == swaps + [renames[|renames| - 1]];
    }
  }

  lemma {:induction false} GuardedRunIsInStep(s: Server, es: seq<Move>, u: ID)
    requires Sane(s) && InAgreement(s, u) && Settled(s.tasks, u) && AllAllowed(s, es) && Undisturbed(s, es, u)
    requires OneAtATime(s, es, u)
    ensures InStep(Commits(s, es, u), Renames(s, es, u), Swaps(s, es, u))
  {
    hide Sane, Booked, Next, Allowed, Upsets, Settled, Accepted, CommitAt, RenameAt, SwapAt, InStep;
    if es == [] {
      NothingInStep();
    } else {
      var before, e := es[..|es| - 1], es[|es| - 1];
      GuardedRunIsInStep(s, before, u);
      RunIsBooked(s, before, u);
      StaysInStep(After(s, before), e, u, CachedToken(s, u),
                  Commits(s, before, u), Renames(s, before, u), Swaps(s, before, u));
    }
  }

  lemma NothingInStep()
    ensures InStep([], [], [])
  {
  }

  /** If a regeneration of the user commits only while no other of theirs is under way, table, map and token map agree
      again whenever none is. */
  lemma {:induction false} OneAtATimeKeepsAgreement(prior: seq<Move>, es: seq<Move>, u: ID)
    requires AllAllowed(COLD, prior)
    requires var s := After(COLD, prior);
             && InAgreement(s, u) && Settled(s.tasks, u)
             && AllAllowed(s, es) && Undisturbed(s, es, u) && OneAtATime(s, es, u)
    ensures var s' := After(After(COLD, prior), es); Settled(s'.tasks, u) ==> InAgreement(s', u)
  {
    hide Sane, Booked, Next, Allowed, AllAllowed, After, Undisturbed, OneAtATime, Settled, Accepted, InStep,
      Commits, Renames, Swaps;
    var s := After(COLD, prior);
    AlwaysSane(prior);
    RunIsBooked(s, es, u);
    GuardedRunIsInStep(s, es, u);
    if Settled(After(s, es).tasks, u) {
      SettledInStep(After(s, es), u, CachedToken(s, u), Commits(s, es, u), Renames(s, es, u), Swaps(s, es, u));
    }
  }

  // ----- Two requests alone -----

  /** The six steps of two regenerations, in some order: each of `p` and `q` takes its own, and no database call
      fails. */
  predicate SixSteps(es: seq<Move>, p: ID, q: ID) {
    |es| == 6 && forall i | 0 <= i < 6 :: es[i].Act? && es[i].t in {p, q} && !es[i].x.fails
  }

  /** A regeneration of the user, or nothing any more. */
  predicate Regenerating(tasks: map<ID, Task>, p: ID, u: ID) {
    p in tasks ==> tasks[p] == Serving(u, AskToken) || UnderWay(tasks[p], u)
  }

  lemma {:induction false} TwoAlone(s: Server, es: seq<Move>, p: ID, q: ID, u: ID)
    requires Known(s, u) && p != q && Regenerating(s.tasks, p, u) && Regenerating(s.tasks, q, u)
    requires AllAllowed(s, es)
    requires forall i | 0 <= i < |es| :: es[i].Act? && es[i].t in {p, q} && !es[i].x.fails
    ensures var s' := After(s, es);
            && Known(s', u) && Regenerating(s'.tasks, p, u) && Regenerating(s'.tasks, q, u)
            && (forall t | t in s'.tasks && t !in {p, q} :: t in s.tasks && s'.tasks[t] == s.tasks[t])
            && |Commits(s, es, u)| + |Renames(s, es, u)| + |Swaps(s, es, u)| == |es|
    ensures Undisturbed(s, es, u)
  {
    if es != [] {
      var before, e := es[..|es| - 1], es[|es| - 1];
      assert forall i | 0 <= i < |before| :: before[i] == es[i];
      TwoAlone(s, before, p, q, u);
      RegenerationStep(After(s, before), e, u);
      hide Next, Allowed, Upsets, CommitAt, RenameAt, SwapAt;
    }
  }

  /** A step of a regeneration is its commit, its renaming or its swap. */
  lemma RegenerationStep(s: Server, e: Move, u: ID)
    requires e.Act? && e.t in s.tasks && !e.x.fails && Known(s, u) && Allowed(s, e)
    requires s.tasks[e.t] == Serving(u, AskToken) || UnderWay(s.tasks[e.t], u)
    ensures Known(Next(s, e), u) && !Upsets(s, e, u)
    ensures |CommitAt(s, e, u)| + |RenameAt(s, e, u)| + |SwapAt(s, e, u)| == 1
    ensures var tasks := Next(s, e).tasks;
            && Regenerating(tasks, e.t, u)
            && (forall t | t != e.t :: t in tasks <==> t in s.tasks)
            && (forall t | t in tasks && t != e.t :: tasks[t] == s.tasks[t])
  {
    var task := s.tasks[e.t];
    NextOfStep(s.books.db, s.mem, task, e.x, u);
    TxOfStep(s.books.db, s.mem, task, e.x, u);
    KnownStays(s, e, u);
    hide Perform, FreshDraw, Ledger.Commit;
  }

  lemma KnownStays(s: Server, e: Move, u: ID)
    requires e.Act? && e.t in s.tasks && !e.x.fails && Known(s, u)
    requires s.tasks[e.t] == Serving(u, AskToken) || UnderWay(s.tasks[e.t], u)
    ensures Known(Next(s, e), u)
  {
    hide Creating, FreshDraw;
  }

  /** Two regenerations that start from agreement: of all interleavings of their six steps exactly those end in
      agreement in which the two commit, rename and swap in the same order. */
  lemma {:induction false} TwoRegenerationsAgreeIffSameOrder(prior: seq<Move>, u: ID, p: ID, q: ID, es: seq<Move>)
    requires AllAllowed(COLD, prior) && p != q
    requires var s := After(COLD, prior);
             && InAgreement(s, u) && Settled(s.tasks, u)
             && p in s.tasks && s.tasks[p] == Serving(u, AskToken) && q in s.tasks && s.tasks[q] == Serving(u, AskToken)
             && AllAllowed(s, es) && SixSteps(es, p, q)
             && p !in After(s, es).tasks && q !in After(s, es).tasks
    ensures var s := After(COLD, prior);
            var commits, renames, swaps := Commits(s, es, u), Renames(s, es, u), Swaps(s, es, u);
            && |commits| == |renames| == |swaps| == 2
            && (InAgreement(After(s, es), u) <==> commits == renames == swaps)
  {
    var s := After(COLD, prior);
    TwoAlone(s, es, p, q, u);
    hide After, AllAllowed, Undisturbed, Commits, Renames, Swaps, Accepted;
    assert Settled(After(s, es).tasks, u);
    TokensAgreeIffSameOrder(prior, es, u);
  }

  // ----- The guard is exact -----

  /** No restart, nobody entered or removed, and no later regeneration of the user committed. */
  ghost predicate LeftAlone(s: Server, es: seq<Move>, u: ID) {
    es == []
    || (var before, e := es[..|es| - 1], es[|es| - 1];
        LeftAlone(s, before, u) && !Upsets(After(s, before), e, u) && CommitAt(After(s, before), e, u) == [])
  }

  /** However the run goes on without a later regeneration, when none is under way any more all three places agree. */
  ghost predicate WillAgree(s: Server, u: ID) {
    forall es: seq<Move> | AllAllowed(s, es) && LeftAlone(s, es, u) && Settled(After(s, es).tasks, u) ::
      InAgreement(After(s, es), u)
  }

  /** The one regeneration of the user is on its way through. */
  ghost predicate Lone(s: Server, u: ID, token: string) {
    && Known(s, u) && StoredToken(s, u) == token
    && ((Settled(s.tasks, u) && CachedToken(s, u) == token && Accepted(s.mem, u) == {token})
        || exists t | t in s.tasks :: LoneTask(s, u, token, t))
  }

  ghost predicate LoneTask(s: Server, u: ID, token: string, t: ID)
    requires Known(s, u) && t in s.tasks
  {
    && UnderWay(s.tasks[t], u) && (forall o | o in s.tasks && o != t :: !UnderWay(s.tasks[o], u))
    && s.tasks[t].token == token
    && if s.tasks[t].Renaming? then Accepted(s.mem, u) <= {CachedToken(s, u)}
       else CachedToken(s, u) == token && Accepted(s.mem, u) <= {s.tasks[t].was}
  }

  /** All that a step not committing does to the three places and to what is under way. */
  lemma AllNext(s: Server, e: Move, u: ID)
    requires Sane(s) && Known(s, u) && Allowed(s, e) && !Upsets(s, e, u) && CommitAt(s, e, u) == []
    ensures var s' := Next(s, e);
            && Sane(s') && Known(s', u) && StoredToken(s', u) == StoredToken(s, u)
            && CachedToken(s', u) == LastOr(CachedToken(s, u), RenameAt(s, e, u))
            && (Accepted(s'.mem, u)
                == if SwapAt(s, e, u) == [] then Accepted(s.mem, u)
                   else Accepted(s.mem, u) - {s.tasks[e.t].was} + {s.tasks[e.t].token})
  {
    hide Next, Allowed, Accepted, Upsets, RenameAt, SwapAt, IssuedOk, SoleAdmin.OwnAccounts, SoleAdmin.Orderly;
    SaneFacts(s);
    SaneNext(s, e);
    StoredAfter(s, e, u);
    CachedNext(s, e, u);
    AcceptedNext(s, e, u);
  }

  lemma SaneFacts(s: Server)
    requires Sane(s)
    ensures IssuedOk(s) && SoleAdmin.OwnAccounts(s.books.db)
  {
    hide IssuedOk;
    SaneAccounts(s);
  }

  lemma LoneTaskNext(s: Server, e: Move, u: ID, token: string, t: ID)
    requires Sane(s) && Known(s, u) && StoredToken(s, u) == token && t in s.tasks && LoneTask(s, u, token, t)
    requires Allowed(s, e) && !Upsets(s, e, u) && CommitAt(s, e, u) == []
    ensures Lone(Next(s, e), u, token)
  {
    hide Next, Allowed, Upsets, Sane, CommitAt, RenameAt, SwapAt, Accepted;
    AllNext(s, e, u);
    TasksNext(s, e, u);
    WhoseStep(s, e, u);
    var s' := Next(s, e);
    if RenameAt(s, e, u) != [] {
      assert e.t == t;
      assert t in s'.tasks && s'.tasks[t] == Swapping(u, CachedToken(s, u), token);
      assert LoneTask(s', u, token, t);
    } else if SwapAt(s, e, u) == [] {
      assert t in s'.tasks && s'.tasks[t] == s.tasks[t];
      assert LoneTask(s', u, token, t);
    } else {
      assert Settled(s'.tasks, u);
    }
  }

  lemma WhoseStep(s: Server, e: Move, u: ID)
    ensures RenameAt(s, e, u) != [] || SwapAt(s, e, u) != [] ==>
              e.Act? && e.t in s.tasks && UnderWay(s.tasks[e.t], u)
    ensures RenameAt(s, e, u) != [] ==>
              SwapAt(s, e, u) == [] && s.tasks[e.t].Renaming? && RenameAt(s, e, u) == [s.tasks[e.t].token]
    ensures SwapAt(s, e, u) != [] ==> RenameAt(s, e, u) == [] && s.tasks[e.t].Swapping?
  {
  }

  lemma LoneNext(s: Server, e: Move, u: ID, token: string)
    requires Sane(s) && Lone(s, u, token) && Allowed(s, e) && !Upsets(s, e, u) && CommitAt(s, e, u) == []
    ensures Sane(Next(s, e)) && Lone(Next(s, e), u, token)
  {
    hide Next, Allowed, Upsets, Sane, CommitAt, RenameAt, SwapAt, Accepted, LoneTask;
    AllNext(s, e, u);
    if t :| t in s.tasks && LoneTask(s, u, token, t) {
      LoneTaskNext(s, e, u, token, t);
    } else {
      TasksNext(s, e, u);
      WhoseStep(s, e, u);
    }
  }

  lemma {:induction false} StaysLone(s: Server, es: seq<Move>, u: ID, token: string)
    requires Sane(s) && Lone(s, u, token) && AllAllowed(s, es) && LeftAlone(s, es, u)
    ensures Sane(After(s, es)) && Lone(After(s, es), u, token)
  {
    hide Next, Allowed, Upsets, Sane, CommitAt, Lone;
    if es != [] {
      StaysLone(s, es[..|es| - 1], u, token);
      LoneNext(After(s, es[..|es| - 1]), es[|es| - 1], u, token);
    }
  }

  lemma LoneWillAgree(s: Server, u: ID, token: string)
    requires Sane(s) && Lone(s, u, token)
    ensures WillAgree(s, u)
  {
    forall es: seq<Move> | AllAllowed(s, es) && LeftAlone(s, es, u) && Settled(After(s, es).tasks, u)
      ensures InAgreement(After(s, es), u)
    {
      hide Sane, Next, Allowed, After, AllAllowed, LeftAlone, Accepted;
      StaysLone(s, es, u, token);
    }
  }

  // ----- Bringing regenerations to their end -----

  lemma UnderWayIsAllowed(s: Server, o: ID, x: Env, u: ID)
    requires Sane(s) && o in s.tasks && UnderWay(s.tasks[o], u)
    ensures var e := Act(o, x);
            Allowed(s, e) && !Upsets(s, e, u) && CommitAt(s, e, u) == []
  {
    hide Creating, Entering, Sane;
  }

  lemma RenameMove(s: Server, o: ID, x: Env, u: ID)
    requires Sane(s) && Known(s, u) && o in s.tasks && UnderWay(s.tasks[o], u) && s.tasks[o].Renaming?
    ensures var e := Act(o, x);
            var s' := Next(s, e);
            && Allowed(s, e) && !Upsets(s, e, u) && CommitAt(s, e, u) == [] && Sane(s') && Known(s', u)
            && StoredToken(s', u) == StoredToken(s, u) && CachedToken(s', u) == s.tasks[o].token
            && Accepted(s'.mem, u) == Accepted(s.mem, u)
            && s'.tasks == s.tasks[o := Swapping(u, CachedToken(s, u), s.tasks[o].token)]
  {
    var e := Act(o, x);
    UnderWayIsAllowed(s, o, x, u);
    AllNext(s, e, u);
    TasksNext(s, e, u);
    hide Next, Allowed, Sane, Accepted, Upsets, CommitAt;
  }

  lemma SwapMove(s: Server, o: ID, x: Env, u: ID)
    requires Sane(s) && Known(s, u) && o in s.tasks && UnderWay(s.tasks[o], u) && s.tasks[o].Swapping?
    ensures var e := Act(o, x);
            var s' := Next(s, e);
            && Allowed(s, e) && !Upsets(s, e, u) && CommitAt(s, e, u) == [] && Sane(s') && Known(s', u)
            && StoredToken(s', u) == StoredToken(s, u) && CachedToken(s', u) == CachedToken(s, u)
            && Accepted(s'.mem, u) == Accepted(s.mem, u) - {s.tasks[o].was} + {s.tasks[o].token}
            && s'.tasks == s.tasks - {o}
  {
    var e := Act(o, x);
    UnderWayIsAllowed(s, o, x, u);
    AllNext(s, e, u);
    TasksNext(s, e, u);
    hide Next, Allowed, Sane, Accepted, Upsets, CommitAt;
  }

  lemma NextMove(s: Server, es: seq<Move>, e: Move, u: ID)
    requires AllAllowed(s, es) && LeftAlone(s, es, u)
    requires Allowed(After(s, es), e) && !Upsets(After(s, es), e, u) && CommitAt(After(s, es), e, u) == []
    ensures AllAllowed(s, es + [e]) && LeftAlone(s, es + [e], u) && After(s, es + [e]) == Next(After(s, es), e)
  {
    hide Next, Allowed, Upsets, CommitAt;
    OneMoreMove(s, es, e);
    assert (es + [e])[..|es|] == es;
  }

  lemma NoMovesAlone(s: Server, u: ID)
    ensures AllAllowed(s, []) && LeftAlone(s, [], u) && After(s, []) == s
  {
  }

  /** A run that went on undisturbed to `s'`. */
  ghost predicate Leads(s: Server, es: seq<Move>, u: ID, s': Server) {
    && AllAllowed(s, es) && LeftAlone(s, es, u) && After(s, es) == s'
    && Sane(s') && Known(s', u) && Known(s, u) && StoredToken(s', u) == StoredToken(s, u)
  }

  /** A regeneration under way can be brought to its end at once. */
  lemma Finish(s: Server, es: seq<Move>, s0: Server, o: ID, x: Env, u: ID) returns (es': seq<Move>, s': Server)
    requires Leads(s0, es, u, s) && o in s.tasks && UnderWay(s.tasks[o], u)
    ensures Leads(s0, es', u, s') && s'.tasks == s.tasks - {o}
    ensures s.tasks[o].Renaming? ==>
              && CachedToken(s', u) == s.tasks[o].token
              && Accepted(s'.mem, u) == Accepted(s.mem, u) - {CachedToken(s, u)} + {s.tasks[o].token}
    ensures s.tasks[o].Swapping? ==> s.tasks[o].token in Accepted(s'.mem, u)
  {
    hide Next, Allowed, Sane, Accepted, Upsets, CommitAt, After, AllAllowed, LeftAlone;
    var e := Act(o, x);
    if s.tasks[o].Renaming? {
      RenameMove(s, o, x, u);
      NextMove(s0, es, e, u);
      var s1 := Next(s, e);
      SwapMove(s1, o, x, u);
      NextMove(s0, es + [e], e, u);
      es', s' := es + [e] + [e], Next(s1, e);
      assert s1.tasks - {o} == s.tasks - {o};
    } else {
      SwapMove(s, o, x, u);
      NextMove(s0, es, e, u);
      es', s' := es + [e], Next(s, e);
    }
  }

  function AllUnderWay(tasks: map<ID, Task>, u: ID): set<ID> {
    set t | t in tasks && UnderWay(tasks[t], u)
  }

  lemma OneLessUnderWay(tasks: map<ID, Task>, u: ID, o: ID, t: ID)
    requires o in AllUnderWay(tasks, u) && o != t
    ensures |AllUnderWay(tasks - {o}, u)| < |AllUnderWay(tasks, u)|
    ensures t in tasks ==> t in tasks - {o} && (tasks - {o})[t] == tasks[t]
  {
    assert AllUnderWay(tasks - {o}, u) == AllUnderWay(tasks, u) - {o};
  }

  /** All regenerations under way but `t` can be brought to their end. */
  lemma {:induction false} Drain(s: Server, es: seq<Move>, s0: Server, t: ID, x: Env, u: ID)
    returns (es': seq<Move>, s': Server)
    requires Leads(s0, es, u, s) && t in s.tasks
    ensures Leads(s0, es', u, s') && t in s'.tasks && s'.tasks[t] == s.tasks[t]
    ensures forall o | o in s'.tasks && o != t :: !UnderWay(s'.tasks[o], u)
    decreases |AllUnderWay(s.tasks, u)|
  {
    hide Next, Allowed, Sane, Accepted, Upsets, CommitAt, After, AllAllowed, LeftAlone, UnderWay;
    if o :| o in s.tasks && o != t && UnderWay(s.tasks[o], u) {
      var es1, s1 := Finish(s, es, s0, o, x, u);
      OneLessUnderWay(s.tasks, u, o, t);
      es', s' := Drain(s1, es1, s0, t, x, u);
    } else {
      es', s' := es, s;
    }
  }

  /** Another regeneration under way can come to its end last, and keep its token in the map or among the accepted. */
  lemma AnotherDisagrees(s: Server, u: ID, x: Env, t: ID)
    requires Sane(s) && Known(s, u) && t in s.tasks && UnderWay(s.tasks[t], u) && s.tasks[t].token != StoredToken(s, u)
    ensures !WillAgree(s, u)
  {
    hide Next, Allowed, Sane, Upsets, CommitAt, After, AllAllowed, LeftAlone, Accepted;
    NoMovesAlone(s, u);
    var es1, s1 := Drain(s, [], s, t, x, u);
    var es2, s2 := Finish(s1, es1, s, t, x, u);
    assert Settled(s2.tasks, u);
    assert !InAgreement(s2, u);
  }

  /** A token accepted beside the cached one stays accepted. */
  lemma StrayTokenDisagrees(s: Server, u: ID, x: Env, p: ID, stray: string)
    requires Sane(s) && Known(s, u) && p in s.tasks && UnderWay(s.tasks[p], u) && s.tasks[p].Renaming?
    requires forall o | o in s.tasks && o != p :: !UnderWay(s.tasks[o], u)
    requires stray in Accepted(s.mem, u) && stray != CachedToken(s, u) && stray != s.tasks[p].token
    ensures !WillAgree(s, u)
  {
    hide Next, Allowed, Sane, Upsets, CommitAt, After, AllAllowed, LeftAlone, Accepted;
    NoMovesAlone(s, u);
    var es, s' := Finish(s, [], s, p, x, u);
    assert Settled(s'.tasks, u);
    assert stray in Accepted(s'.mem, u) && CachedToken(s', u) == s.tasks[p].token;
    assert stray !in {CachedToken(s', u)};
    assert !InAgreement(s', u);
  }

  /** At the commit of a regeneration, in any reachable state and among whatever other requests: no other of the user is
      under way and no token but the cached one is accepted, if and only if in every continuation without restart,
      removal and later regeneration of the user, table, map and token map agree as soon as none is under way. */
  lemma {:induction false} AloneIffWillAgree(prior: seq<Move>, u: ID, p: ID, x: Env)
    requires AllAllowed(COLD, prior)
    requires var s := After(COLD, prior);
             Known(s, u) && Allowed(s, Act(p, x)) && CommitAt(s, Act(p, x), u) != []
    ensures var s := After(COLD, prior);
            Settled(s.tasks, u) && Accepted(s.mem, u) <= {CachedToken(s, u)} <==> WillAgree(Next(s, Act(p, x)), u)
  {
    hide After, AllAllowed, Sane;
    AlwaysSane(prior);
    GuardIsExact(After(COLD, prior), u, p, x);
  }

  lemma CommitEffect(s: Server, u: ID, p: ID, x: Env)
    requires Sane(s) && Known(s, u) && Allowed(s, Act(p, x)) && CommitAt(s, Act(p, x), u) != []
    ensures var s' := Next(s, Act(p, x));
            && Sane(s') && Known(s', u) && StoredToken(s', u) == x.token && CachedToken(s', u) == CachedToken(s, u)
            && Accepted(s'.mem, u) == Accepted(s.mem, u) && x.token !in s.issued
            && p in s.tasks && !UnderWay(s.tasks[p], u) && s'.tasks == s.tasks[p := Renaming(u, x.token)]
  {
    var e := Act(p, x);
    FreshCommit(s, e, u);
    AtMostOneKind(s, e, u);
    TasksNext(s, e, u);
    SaneFacts(s);
    SaneNext(s, e);
    StoredAfter(s, e, u);
    CachedNext(s, e, u);
    AcceptedNext(s, e, u);
    hide Next, Allowed, Sane, Accepted, IssuedOk, SoleAdmin.OwnAccounts;
  }

  lemma TokensAreIssued(s: Server, u: ID)
    requires Sane(s) && Known(s, u)
    ensures forall token | token in Accepted(s.mem, u) :: token in s.issued
    ensures forall t | t in s.tasks && UnderWay(s.tasks[t], u) :: s.tasks[t].token in s.issued
  {
    SaneFacts(s);
    hide Sane, SoleAdmin.OwnAccounts;
    forall t | t in s.tasks && UnderWay(s.tasks[t], u) ensures s.tasks[t].token in s.issued {
      assert CarriesIssued(s.tasks[t], s.issued);
    }
  }

  lemma GuardIsExact(s: Server, u: ID, p: ID, x: Env)
    requires Sane(s) && Known(s, u) && Allowed(s, Act(p, x)) && CommitAt(s, Act(p, x), u) != []
    ensures Settled(s.tasks, u) && Accepted(s.mem, u) <= {CachedToken(s, u)} <==> WillAgree(Next(s, Act(p, x)), u)
  {
    hide Next, Allowed, Sane, CommitAt, WillAgree, Accepted;
    CommitEffect(s, u, p, x);
    TokensAreIssued(s, u);
    var s' := Next(s, Act(p, x));
    if t :| t in s.tasks && UnderWay(s.tasks[t], u) {
      AnotherDisagrees(s', u, x, t);
    } else if stray :| stray in Accepted(s.mem, u) && stray != CachedToken(s, u) {
      StrayTokenDisagrees(s', u, x, p, stray);
    } else {
      assert LoneTask(s', u, x.token, p);
      LoneWillAgree(s', u, x.token);
    }
  }
}
