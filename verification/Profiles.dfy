/** When table and map agree on what a user has set: the delay, the window, the language and the notification flag.

    An update commits to the table and adopts the same values in the map, in two steps. Any number of updates may be
    under way for one user, among any other requests. */
module Profiles {
  import opened Base
  import opened Models
  import opened Device
  import opened Memory
  import opened Tables
  import opened Registry
  import opened Concurrent
  import opened Accounts
  import History
  import SoleAdmin
  import Ledger
  import Runs

  datatype Profile = Profile(
    upDelay: int,
    maintStart: Option<int>,
    maintEnd: Option<int>,
    language: string,
    enabled: bool)

  datatype Change = Set(req: UpdateSettings) | Speak(code: string) | Switch(on: bool)

  function ProfileOf(u: User, enabled: bool): Profile {
    Profile(u.upDelay, u.maintStart, u.maintEnd, u.languageCode, enabled)
  }

  function Changed(p: Profile, c: Change): Profile {
    match c
    case Switch(on) => p.(enabled := on)
    case Speak(code) => p.(language := code)
    case Set(req) =>
      p.(upDelay := if req.upDelay.Some? then req.upDelay.value else p.upDelay,
         maintStart := if req.maintStart.Some? then req.maintStart.value else p.maintStart,
         maintEnd := if req.maintEnd.Some? then req.maintEnd.value else p.maintEnd)
  }

  function ChangedBy(p: Profile, cs: seq<Change>): Profile {
    Runs.Fold(Changed, p, cs)
  }

  predicate InTables(db: Db, u: ID) {
    u in db.users && db.users[u].ntfyId in db.ntfy
  }

  predicate Known(s: Server, u: ID) {
    InTables(s.books.db, u) && u in s.mem.users
  }

  function StoredIn(db: Db, u: ID): Profile
    requires InTables(db, u)
  {
    ProfileOf(db.users[u], db.ntfy[db.users[u].ntfyId].enabled)
  }

  function CachedIn(d: UserState): Profile {
    ProfileOf(d.user, d.ntfy.enabled)
  }

  function Stored(s: Server, u: ID): Profile
    requires Known(s, u)
  {
    StoredIn(s.books.db, u)
  }

  function Cached(s: Server, u: ID): Profile
    requires Known(s, u)
  {
    CachedIn(s.mem.users[u])
  }

  predicate InAgreement(s: Server, u: ID) {
    Known(s, u) && Stored(s, u) == Cached(s, u)
  }

  /** The change a request has committed and is yet to adopt. */
  function Pending(task: Task, u: ID): seq<Change> {
    match task
    case Adopting(uid, req) => if uid == u then [Set(req)] else []
    case Speaking(uid, code) => if uid == u then [Speak(code)] else []
    case Enabled(uid, on) => if uid == u then [Switch(on)] else []
    case _ => []
  }

  ghost predicate Settled(tasks: map<ID, Task>, u: ID) {
    forall t | t in tasks :: Pending(tasks[t], u) == []
  }

  /** The change a step commits, if the database does not fail. */
  function Committing(task: Task, u: ID): seq<Change> {
    match task
    case Serving(uid, AskSettings(req)) => if uid == u && Rejection(req).None? then [Set(req)] else []
    case Serving(uid, AskLanguage(code)) => if uid == u && LanguageAccepted(code) then [Speak(code)] else []
    case Enabling(uid, _, on) => if uid == u then [Switch(on)] else []
    case _ => []
  }

  function CommitAt(s: Server, e: Move, u: ID): seq<Change> {
    if e.Act? && e.t in s.tasks && !e.x.fails then Committing(s.tasks[e.t], u) else []
  }

  function AdoptAt(s: Server, e: Move, u: ID): seq<Change> {
    if e.Act? && e.t in s.tasks then Pending(s.tasks[e.t], u) else []
  }

  /** The changes of the user in the order of their commits, and of their adoptions. */
  function Commits(s: Server, es: seq<Move>, u: ID): seq<Change> {
    Runs.Output(Next, (s: Server, e: Move) => CommitAt(s, e, u), s, es)
  }

  function Adopts(s: Server, es: seq<Move>, u: ID): seq<Change> {
    Runs.Output(Next, (s: Server, e: Move) => AdoptAt(s, e, u), s, es)
  }

  /** Restarts, and steps that enter or remove the user. */
  predicate Upsets(s: Server, e: Move, u: ID) {
    match e
    case Crash(_) => true
    case Act(t, _) =>
      t in s.tasks &&
      (match s.tasks[t]
       case AddingUser(st, _) => st.user.id == u
       case DeletingUser(target, _) => target == u
       case DroppingUser(target, _) => target == u
       case _ => false)
    case _ => false
  }

  ghost predicate Undisturbed(s: Server, es: seq<Move>, u: ID) {
    es == []
    || (Undisturbed(s, es[..|es| - 1], u) && !Upsets(After(s, es[..|es| - 1]), es[|es| - 1], u))
  }

  // ----- One step -----

  lemma SettingsChange(u: User, req: UpdateSettings, enabled: bool)
    requires Rejection(req).None?
    ensures ProfileOf(SettingsInTable(u, req), enabled) == Changed(ProfileOf(u, enabled), Set(req))
    ensures ProfileOf(SettingsInMemory(u, req), enabled) == Changed(ProfileOf(u, enabled), Set(req))
  {
  }

  /** A settings change that is accepted can be stored. */
  predicate Storable(db: Db, task: Task) {
    task.Serving? && task.ask.AskSettings? && Rejection(task.ask.req).None? ==>
      UpdateSettingsRow(db, task.uid, task.ask.req).Ok?
  }

  /** The changes to this user's rows, where `n` is their account. */
  function ChangesOf(tx: Ledger.Tx, u: ID, n: ID): seq<Change> {
    match tx
    case NewSettings(uid, req) => if uid == u then [Set(req)] else []
    case NewLanguage(uid, code) => if uid == u then [Speak(code)] else []
    case NewEnabled(ntfyId, on) => if ntfyId == n then [Switch(on)] else []
    case _ => []
  }

  lemma TxOfStep(db: Db, m: Mem, task: Task, x: Env, u: ID, n: ID)
    requires Storable(db, task)
    requires task.Enabling? ==> (task.ntfyId == n <==> task.uid == u)
    ensures var tx := Perform(db, m, task, x).tx;
            && (if tx.Some? then ChangesOf(tx.value, u, n) else []) == (if x.fails then [] else Committing(task, u))
            && (tx.Some? && tx.value.NewSettings? && tx.value.uid == u ==>
                  Rejection(tx.value.req).None? && UpdateSettingsRow(db, u, tx.value.req).Ok?)
            && (tx.Some? && tx.value.RemoveUser? ==> task.DeletingUser? && task.target == tx.value.uid)
            && (tx.Some? && tx.value.AddState? ==> CreateState(db, tx.value.st, tx.value.invite).Ok?)
  {
    hide UpdateSettingsRow, DeleteUser, DeleteInvite, CreateInvite, UnusedOf, CreateState, Prepared, Step, Refused,
      Rejection, LanguageAccepted;
    if CreatesUser(task) {
      hide Entering, Following;
    } else if EntersGuards(task) {
      hide Creating, Following;
    } else {
      hide Creating, Entering;
    }
  }

  lemma CommitChanges(b: Ledger.Books, tx: Ledger.Tx, u: ID)
    requires InTables(b.db, u) && SoleAdmin.OwnAccounts(b.db)
    requires tx.RemoveUser? ==> tx.uid != u
    requires tx.AddState? ==> CreateState(b.db, tx.st, tx.invite).Ok?
    requires tx.NewSettings? && tx.uid == u ==> Rejection(tx.req).None? && UpdateSettingsRow(b.db, u, tx.req).Ok?
    ensures var db := Ledger.Commit(b, tx).db;
            var cs := ChangesOf(tx, u, b.db.users[u].ntfyId);
            && InTables(db, u)
            && StoredIn(db, u) == if cs == [] then StoredIn(b.db, u) else Changed(StoredIn(b.db, u), cs[0])
  {
    hide SettingsInTable, SettingsInMemory, Rejection, Changed;
    match tx
    case RemoveUser(target) => RemovalSparesProfile(b, target, u);
    case NewSettings(uid, req) =>
      if uid == u {
        SettingsChange(b.db.users[u], req, b.db.ntfy[b.db.users[u].ntfyId].enabled);
        Accounts.SettingsKeepAccount(b.db.users[u], req);
      }
    case NewLanguage(_, code) => SimpleChange(StoredIn(b.db, u), code, true);
    case NewEnabled(_, on) => SimpleChange(StoredIn(b.db, u), "", on);
    case _ =>
  }

  lemma RemovalSparesProfile(b: Ledger.Books, target: ID, u: ID)
    requires InTables(b.db, u) && SoleAdmin.OwnAccounts(b.db) && target != u
    ensures var db := Ledger.Commit(b, Ledger.RemoveUser(target)).db;
            InTables(db, u) && StoredIn(db, u) == StoredIn(b.db, u)
  {
    if target in b.db.users {
      SoleAdmin.OnlyTheTargetGoes(b.db, target);
    }
  }

  lemma SimpleChange(p: Profile, code: string, on: bool)
    ensures Changed(p, Speak(code)) == p.(language := code)
    ensures Changed(p, Switch(on)) == p.(enabled := on)
  {
  }

  /** A device event other than a settings change leaves the profile alone. */
  lemma StepKeepsProfile(d: UserState, e: Device.Event)
    requires !e.Edit? && !e.Settings?
    ensures CachedIn(Step(d, e)) == CachedIn(d)
  {
  }

  lemma CachedOfStep(db: Db, m: Mem, task: Task, x: Env, u: ID)
    requires u in m.users && !(task.AddingUser? && task.st.user.id == u) && !(task.DroppingUser? && task.target == u)
    requires History.CarriesValid(task)
    ensures var users := Perform(db, m, task, x).mem.users;
            && u in users
            && CachedIn(users[u]) == (if Pending(task, u) == [] then CachedIn(m.users[u])
                                      else Changed(CachedIn(m.users[u]), Pending(task, u)[0]))
  {
    if CreatesUser(task) {
      hide Entering, Following, CreateState, Prepared, ProfileOf;
    } else if EntersGuards(task) {
      CachedOfEntering(db, m, task, x, u);
    } else {
      CachedOfLaterStep(db, m, task, x, u);
    }
  }

  lemma CachedOfEntering(db: Db, m: Mem, task: Task, x: Env, u: ID)
    requires EntersGuards(task) && u in m.users
    ensures var users := Perform(db, m, task, x).mem.users; u in users && CachedIn(users[u]) == CachedIn(m.users[u])
  {
    hide Creating, Following, Step, Refused, DeleteInvite, UpdateSettingsRow, UnusedOf, CachedIn;
    StepKeepsProfile(m.users[u], Device.Event.Ping(x.now, x.at));
    StepKeepsProfile(m.users[u], Device.Event.Pause(x.at));
    StepKeepsProfile(m.users[u], Device.Event.Unpause(x.at));
  }

  lemma CachedOfLaterStep(db: Db, m: Mem, task: Task, x: Env, u: ID)
    requires !CreatesUser(task) && !EntersGuards(task) && u in m.users && !(task.DroppingUser? && task.target == u)
    requires History.CarriesValid(task)
    ensures var users := Perform(db, m, task, x).mem.users;
            && u in users
            && CachedIn(users[u]) == (if Pending(task, u) == [] then CachedIn(m.users[u])
                                      else Changed(CachedIn(m.users[u]), Pending(task, u)[0]))
  {
    hide Creating, Entering, DeleteUser, CreateInvite, HasInvite, Rejection, SettingsInMemory;
    if task.Adopting? { SettingsChange(m.users[u].user, task.req, m.users[u].ntfy.enabled); }
  }

  /** How an update goes on. */
  lemma NextOfStep(db: Db, m: Mem, task: Task, x: Env, u: ID)
    requires Storable(db, task)
    ensures var next := Perform(db, m, task, x).next;
            && (Pending(task, u) != [] ==> next.None?)
            && (if next.Some? then Pending(next.value, u) else []) == (if x.fails then [] else Committing(task, u))
  {
    if CreatesUser(task) {
      hide Entering, Following, CreateState, Prepared;
    } else if EntersGuards(task) {
      hide Creating, Following, UpdateSettingsRow, DeleteInvite, UnusedOf, Step, Refused, Rejection, LanguageAccepted;
    } else {
      NextOfLaterStep(db, m, task, x, u);
    }
  }

  lemma NextOfLaterStep(db: Db, m: Mem, task: Task, x: Env, u: ID)
    requires !CreatesUser(task) && !EntersGuards(task)
    ensures var next := Perform(db, m, task, x).next;
            && (Pending(task, u) != [] ==> next.None?)
            && (if next.Some? then Pending(next.value, u) else []) == (if x.fails then [] else Committing(task, u))
  {
    hide Creating, Entering, DeleteUser, CreateInvite, OnDevice, DropInvites, HasInvite;
  }

  // ----- Runs -----

  ghost predicate Sane(s: Server) {
    SoleAdmin.Orderly(s) && History.AllValid(s) && AccountsOk(s)
  }

  lemma SaneNext(s: Server, e: Move)
    requires Sane(s) && Allowed(s, e)
    ensures Sane(Next(s, e))
  {
    hide SoleAdmin.Orderly, History.AllValid, AccountsOk, Next, Allowed;
    SoleAdmin.OrderlyNext(s, e);
    History.ValidAfter(s, e);
    AccountsNext(s, e);
  }

  lemma AlwaysSane(es: seq<Move>)
    requires AllAllowed(COLD, es)
    ensures Sane(After(COLD, es))
  {
    hide SoleAdmin.Orderly, History.AllValid, AccountsOk, Next, Allowed;
    AlwaysAccounts(es);
    History.SettingsStayValid(es);
  }

  lemma SaneFacts(s: Server)
    requires Sane(s)
    ensures SoleAdmin.OwnAccounts(s.books.db) && History.AllValid(s) && AccountsOk(s)
  {
    hide History.AllValid, AccountsOk;
  }

  /** What the table is asked to store it stores. */
  lemma AcceptedIsStored(s: Server, uid: ID, req: UpdateSettings)
    requires History.AllValid(s) && Rejection(req).None?
    ensures UpdateSettingsRow(s.books.db, uid, req).Ok?
  {
    hide Rejection, SettingsInTable, SettingsInMemory;
    if uid in s.books.db.users { History.AcceptedKeepsValid(s.books.db.users[uid], req); }
  }

  lemma TaskIsSane(s: Server, t: ID, u: ID)
    requires History.AllValid(s) && AccountsOk(s) && t in s.tasks && u in s.books.db.users
    ensures Storable(s.books.db, s.tasks[t]) && History.CarriesValid(s.tasks[t])
    ensures s.tasks[t].Enabling? ==> (s.tasks[t].ntfyId == s.books.db.users[u].ntfyId <==> s.tasks[t].uid == u)
  {
    assert CarriesAccount(s.tasks[t], s.accounts);
    hide Rejection, UpdateSettingsRow;
    if s.tasks[t].Serving? && s.tasks[t].ask.AskSettings? && Rejection(s.tasks[t].ask.req).None? {
      AcceptedIsStored(s, s.tasks[t].uid, s.tasks[t].ask.req);
    }
  }

  lemma NoChange(p: Profile)
    ensures ChangedBy(p, []) == p
  {
  }

  lemma OneChange(p: Profile, c: Change)
    ensures ChangedBy(p, [c]) == Changed(p, c)
  {
    Runs.FoldOne(Changed, p, c);
  }

  lemma AtMostOne(task: Task, u: ID)
    ensures |Pending(task, u)| <= 1 && |Committing(task, u)| <= 1
  {
  }

  lemma StoredNext(s: Server, e: Move, u: ID)
    requires Sane(s) && Allowed(s, e) && !Upsets(s, e, u) && Known(s, u)
    ensures var db := Next(s, e).books.db;
            InTables(db, u) && StoredIn(db, u) == ChangedBy(Stored(s, u), CommitAt(s, e, u))
  {
    hide Sane, Perform, SoleAdmin.OwnAccounts, History.AllValid, AccountsOk, Ledger.Commit, CreateState,
      UpdateSettingsRow, FreshDraw, Changed, StoredIn, Committing, History.CarriesValid, Rejection;
    SaneFacts(s);
    NoChange(Stored(s, u));
    if e.Act? {
      TaskIsSane(s, e.t, u);
      TxOfStep(s.books.db, s.mem, s.tasks[e.t], e.x, u, s.books.db.users[u].ntfyId);
      AtMostOne(s.tasks[e.t], u);
      var f := Perform(s.books.db, s.mem, s.tasks[e.t], e.x);
      if f.tx.Some? { CommitChanges(s.books, f.tx.value, u); }
      if CommitAt(s, e, u) != [] {
        OneChange(Stored(s, u), CommitAt(s, e, u)[0]);
        assert CommitAt(s, e, u) == [CommitAt(s, e, u)[0]];
      }
    }
  }

  lemma CachedNext(s: Server, e: Move, u: ID)
    requires Sane(s) && Allowed(s, e) && !Upsets(s, e, u) && Known(s, u)
    ensures var users := Next(s, e).mem.users;
            u in users && CachedIn(users[u]) == ChangedBy(Cached(s, u), AdoptAt(s, e, u))
  {
    hide Sane, Perform, SoleAdmin.OwnAccounts, History.AllValid, AccountsOk, Ledger.Commit, UpdateSettingsRow,
      FreshDraw,
      Changed, ProfileOf, History.CarriesValid, ToPersist, Step;
    SaneFacts(s);
    NoChange(Cached(s, u));
    match e
    case Act(t, x) =>
      TaskIsSane(s, t, u);
      CachedOfStep(s.books.db, s.mem, s.tasks[t], x, u);
      if AdoptAt(s, e, u) != [] { OneChange(Cached(s, u), AdoptAt(s, e, u)[0]); }
    case ScanAll(_, now, clock, _) => StepKeepsProfile(s.mem.users[u], Scan(now, clock(u)));
    case Arrive(_, _) =>
  }

  lemma {:induction false} RunIsBooked(s: Server, es: seq<Move>, u: ID)
    requires Sane(s) && Known(s, u) && AllAllowed(s, es) && Undisturbed(s, es, u)
    ensures var s' := After(s, es);
            && Sane(s') && Known(s', u)
            && Stored(s', u) == ChangedBy(Stored(s, u), Commits(s, es, u))
            && Cached(s', u) == ChangedBy(Cached(s, u), Adopts(s, es, u))
  {
    hide Sane, Next, Allowed, Upsets, CommitAt, AdoptAt, StoredIn, CachedIn, Changed;
    if es == [] {
      NoChange(Stored(s, u));
      NoChange(Cached(s, u));
    } else {
      var before, e := es[..|es| - 1], es[|es| - 1];
      RunIsBooked(s, before, u);
      StoredNext(After(s, before), e, u);
      CachedNext(After(s, before), e, u);
      SaneNext(After(s, before), e);
      Runs.FoldConcat(Changed, Stored(s, u), Commits(s, before, u), CommitAt(After(s, before), e, u));
      Runs.FoldConcat(Changed, Cached(s, u), Adopts(s, before, u), AdoptAt(After(s, before), e, u));
    }
  }

  // ----- The results -----

  function LastDelay(first: int, cs: seq<Change>): int {
    if cs == [] then first
    else
      var last := cs[|cs| - 1];
      if last.Set? && last.req.upDelay.Some? then last.req.upDelay.value else LastDelay(first, cs[..|cs| - 1])
  }

  function LastStart(first: Option<int>, cs: seq<Change>): Option<int> {
    if cs == [] then first
    else
      var last := cs[|cs| - 1];
      if last.Set? && last.req.maintStart.Some? then last.req.maintStart.value else LastStart(first, cs[..|cs| - 1])
  }

  function LastEnd(first: Option<int>, cs: seq<Change>): Option<int> {
    if cs == [] then first
    else
      var last := cs[|cs| - 1];
      if last.Set? && last.req.maintEnd.Some? then last.req.maintEnd.value else LastEnd(first, cs[..|cs| - 1])
  }

  function LastLanguage(first: string, cs: seq<Change>): string {
    if cs == [] then first
    else
      var last := cs[|cs| - 1];
      if last.Speak? then last.code else LastLanguage(first, cs[..|cs| - 1])
  }

  function LastSwitch(first: bool, cs: seq<Change>): bool {
    if cs == [] then first
    else
      var last := cs[|cs| - 1];
      if last.Switch? then last.on else LastSwitch(first, cs[..|cs| - 1])
  }

  /** In each column the last change to set it stands. */
  lemma {:induction false} LastChangesStand(p: Profile, cs: seq<Change>)
    ensures ChangedBy(p, cs) == Profile(LastDelay(p.upDelay, cs), LastStart(p.maintStart, cs), LastEnd(p.maintEnd, cs),
                                        LastLanguage(p.language, cs), LastSwitch(p.enabled, cs))
  {
    if cs != [] {
      LastChangesStand(p, cs[..|cs| - 1]);
    }
  }

  /** From agreement, among whatever other requests: the table holds in every column what was last committed, and the
      map what was last adopted; so they agree where those do, and always when the changes have been adopted in the
      order of their commits and none is under way. */
  lemma {:induction false} ProfilesAgreeIffLastChangesDo(prior: seq<Move>, es: seq<Move>, u: ID)
    requires AllAllowed(COLD, prior)
    requires var s := After(COLD, prior); InAgreement(s, u) && AllAllowed(s, es) && Undisturbed(s, es, u)
    ensures var s := After(COLD, prior);
            var p, commits, adopts := Stored(s, u), Commits(s, es, u), Adopts(s, es, u);
            && (InAgreement(After(s, es), u) <==>
                && LastDelay(p.upDelay, commits) == LastDelay(p.upDelay, adopts)
                && LastStart(p.maintStart, commits) == LastStart(p.maintStart, adopts)
                && LastEnd(p.maintEnd, commits) == LastEnd(p.maintEnd, adopts)
                && LastLanguage(p.language, commits) == LastLanguage(p.language, adopts)
                && LastSwitch(p.enabled, commits) == LastSwitch(p.enabled, adopts))
            && (adopts == commits ==> InAgreement(After(s, es), u))
  {
    hide Sane, After, AllAllowed, Undisturbed, Commits, Adopts, ChangedBy, LastDelay, LastStart, LastEnd, LastLanguage,
      LastSwitch;
    var s := After(COLD, prior);
    AlwaysSane(prior);
    RunIsBooked(s, es, u);
    LastChangesStand(Stored(s, u), Commits(s, es, u));
    LastChangesStand(Stored(s, u), Adopts(s, es, u));
  }

  // ----- One at a time -----

  /** The guard: the user's updates commit only while none of theirs is under way. */
  ghost predicate OneAtATime(s: Server, es: seq<Move>, u: ID) {
    es == []
    || (var before := es[..|es| - 1];
        && OneAtATime(s, before, u)
        && (CommitAt(After(s, before), es[|es| - 1], u) != [] ==> Settled(After(s, before).tasks, u)))
  }

  /** All committed changes are adopted, but for that of one request that is under way. */
  ghost predicate InStep(tasks: map<ID, Task>, u: ID, commits: seq<Change>, adopts: seq<Change>) {
    || (commits == adopts && Settled(tasks, u))
    || exists t | t in tasks ::
         && Pending(tasks[t], u) != [] && commits == adopts + Pending(tasks[t], u)
         && forall o | o in tasks && o != t :: Pending(tasks[o], u) == []
  }

  /** Only its own step moves an update on. */
  lemma TasksNext(s: Server, e: Move, u: ID)
    requires Sane(s) && Allowed(s, e) && !Upsets(s, e, u) && u in s.books.db.users
    ensures CommitAt(s, e, u) != [] ==> e.Act?
    ensures var tasks := Next(s, e).tasks;
            if CommitAt(s, e, u) != [] then
              && e.t in tasks && Pending(tasks[e.t], u) == CommitAt(s, e, u) && AdoptAt(s, e, u) == []
              && (forall t | t in s.tasks && t != e.t :: t in tasks)
              && (forall t | t in tasks && t != e.t :: t in s.tasks && tasks[t] == s.tasks[t])
            else if AdoptAt(s, e, u) != [] then tasks == s.tasks - {e.t}
            else
              && (forall t | t in s.tasks && Pending(s.tasks[t], u) != [] :: t in tasks && tasks[t] == s.tasks[t])
              && (forall t | t in tasks && Pending(tasks[t], u) != [] :: t in s.tasks && tasks[t] == s.tasks[t])
  {
    hide Sane, Perform, SoleAdmin.OwnAccounts, History.AllValid, AccountsOk, Ledger.Commit, Rejection, LanguageAccepted,
      UpdateSettingsRow, FreshDraw, ToPersist, History.CarriesValid, Storable;
    if e.Act? {
      SaneFacts(s);
      TaskIsSane(s, e.t, u);
      NextOfStep(s.books.db, s.mem, s.tasks[e.t], e.x, u);
      NotBoth(s.tasks[e.t], u);
    }
  }

  lemma NotBoth(task: Task, u: ID)
    ensures Committing(task, u) == [] || Pending(task, u) == []
  {
  }

  lemma StaysInStep(s: Server, e: Move, u: ID, commits: seq<Change>, adopts: seq<Change>)
    requires Sane(s) && Allowed(s, e) && !Upsets(s, e, u) && InStep(s.tasks, u, commits, adopts)
    requires u in s.books.db.users
    requires CommitAt(s, e, u) != [] ==> Settled(s.tasks, u)
    ensures InStep(Next(s, e).tasks, u, commits + CommitAt(s, e, u), adopts + AdoptAt(s, e, u))
  {
    hide Sane, Next, Allowed, Upsets, CommitAt;
    TasksNext(s, e, u);
    var tasks := Next(s, e).tasks;
    assert commits + [] == commits && adopts + [] == adopts;
    if CommitAt(s, e, u) != [] {
      assert Pending(tasks[e.t], u) != [];
    } else if !Settled(s.tasks, u) {
      var t :| t in s.tasks && Pending(s.tasks[t], u) != [] && commits == adopts + Pending(s.tasks[t], u)
               && forall o | o in s.tasks && o != t :: Pending(s.tasks[o], u) == [];
      if AdoptAt(s, e, u) == [] {
        assert tasks[t] == s.tasks[t];
      }
    }
  }

  lemma {:induction false} GuardedRunIsInStep(s: Server, es: seq<Move>, u: ID)
    requires Sane(s) && Known(s, u) && Settled(s.tasks, u) && AllAllowed(s, es) && Undisturbed(s, es, u)
    requires OneAtATime(s, es, u)
    ensures InStep(After(s, es).tasks, u, Commits(s, es, u), Adopts(s, es, u))
  {
    hide Sane, Next, Allowed, Upsets, CommitAt, AdoptAt;
    if es != [] {
      hide InStep, Settled;
      var before, e := es[..|es| - 1], es[|es| - 1];
      GuardedRunIsInStep(s, before, u);
      RunIsBooked(s, before, u);
      StaysInStep(After(s, before), e, u, Commits(s, before, u), Adopts(s, before, u));
    }
  }

  /** If an update of the user commits only while no other of theirs is under way, table and map agree again on what
      the user has set whenever none is. */
  lemma {:induction false} OneAtATimeKeepsAgreement(prior: seq<Move>, es: seq<Move>, u: ID)
    requires AllAllowed(COLD, prior)
    requires var s := After(COLD, prior);
             && InAgreement(s, u) && Settled(s.tasks, u)
             && AllAllowed(s, es) && Undisturbed(s, es, u) && OneAtATime(s, es, u)
    ensures var s' := After(After(COLD, prior), es); Settled(s'.tasks, u) ==> InAgreement(s', u)
  {
    hide Sane, After, AllAllowed, Undisturbed, OneAtATime, Commits, Adopts, InAgreement, LastDelay, LastStart, LastEnd,
      LastLanguage, LastSwitch;
    var s := After(COLD, prior);
    AlwaysSane(prior);
    assert Known(s, u) by { AgreementKnows(s, u); }
    GuardedRunIsInStep(s, es, u);
    ProfilesAgreeIffLastChangesDo(prior, es, u);
  }

  lemma AgreementKnows(s: Server, u: ID)
    requires InAgreement(s, u)
    ensures Known(s, u)
  {
  }

  // ----- The guard -----

  datatype Column = DelayColumn | StartColumn | EndColumn | LanguageColumn | SwitchColumn

  predicate Sets(c: Change, col: Column) {
    match col
    case DelayColumn => c.Set? && c.req.upDelay.Some?
    case StartColumn => c.Set? && c.req.maintStart.Some?
    case EndColumn => c.Set? && c.req.maintEnd.Some?
    case LanguageColumn => c.Speak?
    case SwitchColumn => c.Switch?
  }

  predicate Same(p: Profile, q: Profile, col: Column) {
    match col
    case DelayColumn => p.upDelay == q.upDelay
    case StartColumn => p.maintStart == q.maintStart
    case EndColumn => p.maintEnd == q.maintEnd
    case LanguageColumn => p.language == q.language
    case SwitchColumn => p.enabled == q.enabled
  }

  lemma SameInAll(p: Profile, q: Profile)
    ensures p == q <==> forall col: Column :: Same(p, q, col)
  {
    if forall col: Column :: Same(p, q, col) {
      assert Same(p, q, DelayColumn) && Same(p, q, StartColumn) && Same(p, q, EndColumn);
      assert Same(p, q, LanguageColumn) && Same(p, q, SwitchColumn);
    }
  }

  lemma ChangeByColumn(p: Profile, q: Profile, c: Change, col: Column)
    ensures if Sets(c, col) then Same(Changed(p, c), Changed(q, c), col) else Same(Changed(p, c), p, col)
    ensures Changed(Changed(p, c), c) == Changed(p, c)
  {
  }

  /** A request under way is about to set this column. */
  ghost predicate PendingSets(tasks: map<ID, Task>, u: ID, col: Column) {
    exists t | t in tasks :: Pending(tasks[t], u) != [] && Sets(Pending(tasks[t], u)[0], col)
  }

  /** Whatever is under way sets columns only to what the table holds, and where nothing is about to set a column, table
      and map hold the same. */
  ghost predicate Converging(tasks: map<ID, Task>, u: ID, stored: Profile, cached: Profile) {
    && (forall t | t in tasks && Pending(tasks[t], u) != [] :: Changed(stored, Pending(tasks[t], u)[0]) == stored)
    && (forall col: Column :: !PendingSets(tasks, u, col) ==> Same(stored, cached, col))
  }

  /** No restart, nobody entered or removed, and no later change of the user. */
  ghost predicate LeftAlone(s: Server, es: seq<Move>, u: ID) {
    es == []
    || (var before, e := es[..|es| - 1], es[|es| - 1];
        LeftAlone(s, before, u) && !Upsets(After(s, before), e, u) && CommitAt(After(s, before), e, u) == [])
  }

  /** However the run goes on without a later change, when nothing is under way any more table and map agree. */
  ghost predicate WillAgree(s: Server, u: ID) {
    forall es: seq<Move> | AllAllowed(s, es) && LeftAlone(s, es, u) && Settled(After(s, es).tasks, u) ::
      InAgreement(After(s, es), u)
  }

  lemma ChangesNext(s: Server, e: Move, u: ID)
    requires Sane(s) && Known(s, u) && Allowed(s, e) && !Upsets(s, e, u) && CommitAt(s, e, u) == []
    ensures var s' := Next(s, e);
            && Sane(s') && Known(s', u) && Stored(s', u) == Stored(s, u)
            && Cached(s', u) == if AdoptAt(s, e, u) == [] then Cached(s, u)
               else Changed(Cached(s, u), AdoptAt(s, e, u)[0])
  {
    hide Sane, Next, Allowed, Upsets, CommitAt, StoredIn, CachedIn, Changed;
    SaneNext(s, e);
    StoredNext(s, e, u);
    CachedNext(s, e, u);
    NoChange(Stored(s, u));
    NoChange(Cached(s, u));
    if AdoptAt(s, e, u) != [] {
      AtMostOne(s.tasks[e.t], u);
      OneChange(Cached(s, u), AdoptAt(s, e, u)[0]);
      assert AdoptAt(s, e, u) == [AdoptAt(s, e, u)[0]];
    }
  }

  lemma AdoptionConverges(tasks: map<ID, Task>, u: ID, stored: Profile, cached: Profile, t: ID)
    requires Converging(tasks, u, stored, cached) && t in tasks && Pending(tasks[t], u) != []
    ensures Converging(tasks - {t}, u, stored, Changed(cached, Pending(tasks[t], u)[0]))
  {
    hide Changed, Same, Sets;
    var c := Pending(tasks[t], u)[0];
    forall col: Column | !PendingSets(tasks - {t}, u, col) ensures Same(stored, Changed(cached, c), col) {
      ChangeByColumn(cached, stored, c, col);
      SameIsAnEquivalence(stored, cached, Changed(cached, c), col);
      if PendingSets(tasks, u, col) { PendingElsewhere(tasks, u, t, col); }
    }
  }

  lemma PendingElsewhere(tasks: map<ID, Task>, u: ID, t: ID, col: Column)
    requires t in tasks && Pending(tasks[t], u) != [] && PendingSets(tasks, u, col)
    ensures Sets(Pending(tasks[t], u)[0], col) || PendingSets(tasks - {t}, u, col)
  {
    hide Sets;
    var o :| o in tasks && Pending(tasks[o], u) != [] && Sets(Pending(tasks[o], u)[0], col);
    assert o != t ==> o in tasks - {t};
  }

  lemma SameIsAnEquivalence(p: Profile, q: Profile, r: Profile, col: Column)
    ensures Same(p, q, col) <==> Same(q, p, col)
    ensures Same(p, r, col) <==> Same(r, p, col)
    ensures Same(q, r, col) <==> Same(r, q, col)
    ensures Same(p, q, col) && Same(q, r, col) ==> Same(p, r, col)
  {
  }

  lemma OthersConverge(tasks: map<ID, Task>, tasks': map<ID, Task>, u: ID, stored: Profile, cached: Profile)
    requires Converging(tasks, u, stored, cached)
    requires forall t | t in tasks && Pending(tasks[t], u) != [] :: t in tasks' && tasks'[t] == tasks[t]
    requires forall t | t in tasks' && Pending(tasks'[t], u) != [] :: t in tasks && tasks'[t] == tasks[t]
    ensures Converging(tasks', u, stored, cached)
  {
    hide Changed, Same, Sets;
    forall col: Column | PendingSets(tasks, u, col) ensures PendingSets(tasks', u, col) {
      var o :| o in tasks && Pending(tasks[o], u) != [] && Sets(Pending(tasks[o], u)[0], col);
      assert tasks'[o] == tasks[o];
    }
  }

  lemma ConvergingNext(s: Server, e: Move, u: ID)
    requires Sane(s) && Known(s, u) && Allowed(s, e) && !Upsets(s, e, u) && CommitAt(s, e, u) == []
    requires Converging(s.tasks, u, Stored(s, u), Cached(s, u))
    ensures var s' := Next(s, e); Sane(s') && Known(s', u) && Converging(s'.tasks, u, Stored(s', u), Cached(s', u))
  {
    hide Sane, Next, Allowed, Upsets, CommitAt, StoredIn, CachedIn, Changed, Converging;
    ChangesNext(s, e, u);
    TasksNext(s, e, u);
    if AdoptAt(s, e, u) != [] {
      AdoptionConverges(s.tasks, u, Stored(s, u), Cached(s, u), e.t);
    } else {
      OthersConverge(s.tasks, Next(s, e).tasks, u, Stored(s, u), Cached(s, u));
    }
  }

  lemma {:induction false} StaysConverging(s: Server, es: seq<Move>, u: ID)
    requires Sane(s) && Known(s, u) && AllAllowed(s, es) && LeftAlone(s, es, u)
    requires Converging(s.tasks, u, Stored(s, u), Cached(s, u))
    ensures var s' := After(s, es); Sane(s') && Known(s', u) && Converging(s'.tasks, u, Stored(s', u), Cached(s', u))
  {
    hide Sane, Next, Allowed, Upsets, CommitAt, StoredIn, CachedIn, Converging;
    if es != [] {
      StaysConverging(s, es[..|es| - 1], u);
      ConvergingNext(After(s, es[..|es| - 1]), es[|es| - 1], u);
    }
  }

  lemma SettledConverged(s: Server, u: ID)
    requires Known(s, u) && Settled(s.tasks, u) && Converging(s.tasks, u, Stored(s, u), Cached(s, u))
    ensures InAgreement(s, u)
  {
    hide Same, Sets, StoredIn, CachedIn;
    SameInAll(Stored(s, u), Cached(s, u));
  }

  lemma ConvergingWillAgree(s: Server, u: ID)
    requires Sane(s) && Known(s, u) && Converging(s.tasks, u, Stored(s, u), Cached(s, u))
    ensures WillAgree(s, u)
  {
    forall es: seq<Move> | AllAllowed(s, es) && LeftAlone(s, es, u) && Settled(After(s, es).tasks, u)
      ensures InAgreement(After(s, es), u)
    {
      hide Sane, Next, Allowed, After, AllAllowed, LeftAlone, Settled, Converging, StoredIn, CachedIn;
      StaysConverging(s, es, u);
      SettledConverged(After(s, es), u);
    }
  }

  // ----- Bringing what is under way to its end -----

  function UnderWay(tasks: map<ID, Task>, u: ID): set<ID> {
    set t | t in tasks && Pending(tasks[t], u) != []
  }

  lemma AdoptOne(s: Server, t: ID, x: Env, u: ID)
    requires Sane(s) && Known(s, u) && t in s.tasks && Pending(s.tasks[t], u) != []
    ensures var e := Act(t, x);
            && Allowed(s, e) && !Upsets(s, e, u) && CommitAt(s, e, u) == []
               && AdoptAt(s, e, u) == Pending(s.tasks[t], u)
            && Next(s, e).tasks == s.tasks - {t}
  {
    NotBoth(s.tasks[t], u);
    AdoptionIsAllowed(s, t, x, u);
    hide Sane, Perform, AccountsOk, History.AllValid, SoleAdmin.OwnAccounts, History.CarriesValid, Rejection, Allowed,
      Next,
      Storable;
    TasksNext(s, Act(t, x), u);
  }

  lemma AdoptionIsAllowed(s: Server, t: ID, x: Env, u: ID)
    requires t in s.tasks && Pending(s.tasks[t], u) != []
    ensures Allowed(s, Act(t, x)) && !Upsets(s, Act(t, x), u)
  {
    hide Creating, Entering;
  }

  lemma OneLessUnderWay(tasks: map<ID, Task>, u: ID, t: ID, keep: set<ID>)
    requires t in UnderWay(tasks, u) - keep
    ensures UnderWay(tasks - {t}, u) - keep == UnderWay(tasks, u) - keep - {t}
    ensures (tasks - {t}) - (UnderWay(tasks - {t}, u) - keep) == tasks - (UnderWay(tasks, u) - keep)
  {
  }

  lemma NoneUnderWay(tasks: map<ID, Task>, u: ID, keep: set<ID>)
    requires UnderWay(tasks, u) - keep == {}
    ensures tasks - (UnderWay(tasks, u) - keep) == tasks
  {
  }

  /** All requests under way but those of `keep` can be brought to their end, one after another, changing no column they
      do not set. */
  lemma {:induction false} Drain(s: Server, u: ID, x: Env, keep: set<ID>) returns (es: seq<Move>)
    requires Sane(s) && Known(s, u)
    ensures AllAllowed(s, es) && LeftAlone(s, es, u)
    ensures var s' := After(s, es);
            && Sane(s') && Known(s', u) && Stored(s', u) == Stored(s, u)
            && s'.tasks == s.tasks - (UnderWay(s.tasks, u) - keep)
            && Unset(s, s', u)
    decreases |UnderWay(s.tasks, u) - keep|
  {
    hide Sane, Next, Allowed, Upsets, StoredIn, CachedIn, Changed, CommitAt, Unset, UnderWay;
    if UnderWay(s.tasks, u) - keep == {} {
      es := [];
      NoMoves(s);
      NoneUnderWay(s.tasks, u, keep);
      UnsetItself(s, u);
    } else {
      var t :| t in UnderWay(s.tasks, u) - keep;
      InUnderWay(s.tasks, u, t);
      AdoptOne(s, t, x, u);
      ChangesNext(s, Act(t, x), u);
      OneLessUnderWay(s.tasks, u, t, keep);
      var s1 := Next(s, Act(t, x));
      var rest := Drain(s1, u, x, keep);
      es := [Act(t, x)] + rest;
      FirstMove(s, Act(t, x), rest, u);
      DrainedColumns(s, s1, After(s1, rest), t, u);
    }
  }

  lemma InUnderWay(tasks: map<ID, Task>, u: ID, t: ID)
    ensures t in UnderWay(tasks, u) <==> t in tasks && Pending(tasks[t], u) != []
  {
  }

  /** Columns that nothing was about to set are as they were. */
  ghost predicate Unset(s: Server, s': Server, u: ID)
    requires Known(s, u) && Known(s', u)
  {
    forall col: Column :: !PendingSets(s.tasks, u, col) ==> Same(Cached(s', u), Cached(s, u), col)
  }

  lemma UnsetItself(s: Server, u: ID)
    requires Known(s, u)
    ensures Unset(s, s, u)
  {
    hide Same;
    forall col: Column ensures Same(Cached(s, u), Cached(s, u), col) {
      SameAsItself(Cached(s, u), col);
    }
  }

  lemma SameAsItself(p: Profile, col: Column)
    ensures Same(p, p, col)
  {
  }

  lemma FewerPending(tasks: map<ID, Task>, u: ID, t: ID, col: Column)
    ensures PendingSets(tasks - {t}, u, col) ==> PendingSets(tasks, u, col)
  {
  }

  lemma DrainedColumns(s: Server, s1: Server, s2: Server, t: ID, u: ID)
    requires Known(s, u) && Known(s1, u) && Known(s2, u) && t in s.tasks && Pending(s.tasks[t], u) != []
    requires s1.tasks == s.tasks - {t} && Cached(s1, u) == Changed(Cached(s, u), Pending(s.tasks[t], u)[0])
    requires Unset(s1, s2, u)
    ensures Unset(s, s2, u)
  {
    hide StoredIn, CachedIn, Changed, Same, Sets;
    forall col: Column | !PendingSets(s.tasks, u, col) ensures Same(Cached(s2, u), Cached(s, u), col) {
      ChangeByColumn(Cached(s, u), Cached(s, u), Pending(s.tasks[t], u)[0], col);
      FewerPending(s.tasks, u, t, col);
      SameIsAnEquivalence(Cached(s2, u), Cached(s1, u), Cached(s, u), col);
    }
  }

  lemma FirstMove(s: Server, e: Move, rest: seq<Move>, u: ID)
    requires Allowed(s, e) && !Upsets(s, e, u) && CommitAt(s, e, u) == []
    requires AllAllowed(Next(s, e), rest) && LeftAlone(Next(s, e), rest, u)
    ensures AllAllowed(s, [e] + rest) && LeftAlone(s, [e] + rest, u) && After(s, [e] + rest) == After(Next(s, e), rest)
  {
    hide Next, Allowed, Upsets, CommitAt;
    NoMoves(s);
    OneMoreMove(s, [], e);
    assert [] + [e] == [e];
    RunsConcat(s, [e], rest);
    assert [e][..0] == [];
    LeftAloneConcat(s, [e], rest, u);
  }

  lemma {:induction false} LeftAloneConcat(s: Server, a: seq<Move>, b: seq<Move>, u: ID)
    requires LeftAlone(s, a, u) && LeftAlone(After(s, a), b, u)
    ensures LeftAlone(s, a + b, u)
  {
    hide Next, Upsets, CommitAt, After;
    if b == [] {
      assert a + b == a;
    } else {
      LeftAloneConcat(s, a, b[..|b| - 1], u);
      RunsConcat(s, a, b[..|b| - 1]);
      assert (a + b)[..|a + b| - 1] == a + b[..|b| - 1];
    }
  }

  // ----- The guard is exact -----

  /** Something under way sets a column to another value than the table holds: let it adopt last. */
  lemma StrayChangeDisagrees(s: Server, u: ID, x: Env, t: ID)
    requires Sane(s) && Known(s, u) && t in UnderWay(s.tasks, u)
    requires Changed(Stored(s, u), Pending(s.tasks[t], u)[0]) != Stored(s, u)
    ensures !WillAgree(s, u)
  {
    hide Sane, Next, Allowed, Upsets, StoredIn, CachedIn, Changed, CommitAt, After, AllAllowed, LeftAlone, Unset;
    var c := Pending(s.tasks[t], u)[0];
    var es := Drain(s, u, x, {t});
    var s1 := After(s, es);
    assert t in s1.tasks && s1.tasks[t] == s.tasks[t];
    AdoptOne(s1, t, x, u);
    ChangesNext(s1, Act(t, x), u);
    LastMove(s, es, Act(t, x), u);
    var s2 := Next(s1, Act(t, x));
    assert Settled(s2.tasks, u);
    ChangeByColumn(Cached(s1, u), Cached(s1, u), c, DelayColumn);
    assert !InAgreement(s2, u);
  }

  lemma LastMove(s: Server, es: seq<Move>, e: Move, u: ID)
    requires AllAllowed(s, es) && LeftAlone(s, es, u)
    requires Allowed(After(s, es), e) && !Upsets(After(s, es), e, u) && CommitAt(After(s, es), e, u) == []
    ensures AllAllowed(s, es + [e]) && LeftAlone(s, es + [e], u) && After(s, es + [e]) == Next(After(s, es), e)
  {
    hide Next, Allowed, Upsets, CommitAt;
    OneMoreMove(s, es, e);
    assert (es + [e])[..|es|] == es;
  }

  /** A column differs that nothing is about to set: it will. */
  lemma StrayColumnDisagrees(s: Server, u: ID, x: Env, col: Column)
    requires Sane(s) && Known(s, u)
    requires !PendingSets(s.tasks, u, col) && !Same(Stored(s, u), Cached(s, u), col)
    ensures !WillAgree(s, u)
  {
    hide Sane, Next, Allowed, Upsets, StoredIn, CachedIn, Changed, CommitAt, After, AllAllowed, LeftAlone, Same;
    var es := Drain(s, u, x, {});
    var s1 := After(s, es);
    assert Settled(s1.tasks, u);
    SameIsAnEquivalence(Cached(s, u), Cached(s1, u), Stored(s, u), col);
    SameAsItself(Stored(s, u), col);
    assert !InAgreement(s1, u);
  }

  /** In any state: what is under way converges, if and only if every way to its end without a later change agrees. */
  lemma ConvergingIffWillAgree(s: Server, u: ID, x: Env)
    requires Sane(s) && Known(s, u)
    ensures Converging(s.tasks, u, Stored(s, u), Cached(s, u)) <==> WillAgree(s, u)
  {
    hide Sane, WillAgree, StoredIn, CachedIn, Changed, Same, Pending;
    if Converging(s.tasks, u, Stored(s, u), Cached(s, u)) {
      ConvergingWillAgree(s, u);
    } else if t :| t in s.tasks && Pending(s.tasks[t], u) != []
                   && Changed(Stored(s, u), Pending(s.tasks[t], u)[0]) != Stored(s, u) {
      InUnderWay(s.tasks, u, t);
      StrayChangeDisagrees(s, u, x, t);
    } else {
      var col: Column :| !PendingSets(s.tasks, u, col) && !Same(Stored(s, u), Cached(s, u), col);
      StrayColumnDisagrees(s, u, x, col);
    }
  }

  /** What a handler can check before it commits the change `c`: whatever of the user is under way sets columns only to
      what the table will then hold, and in every column that neither `c` nor anything under way sets table and map
      are equal. */
  ghost predicate SafeToCommit(s: Server, u: ID, c: Change)
    requires Known(s, u)
  {
    var stored := Changed(Stored(s, u), c);
    && (forall t | t in s.tasks && Pending(s.tasks[t], u) != [] :: Changed(stored, Pending(s.tasks[t], u)[0]) == stored)
    && (forall col: Column :: !Sets(c, col) && !PendingSets(s.tasks, u, col) ==> Same(Stored(s, u), Cached(s, u), col))
  }

  /** The guard looked at before the commit is convergence after it. */
  lemma SafeIsConverging(tasks: map<ID, Task>, tasks': map<ID, Task>, u: ID, p: ID, c: Change, before: Profile,
                         cached: Profile)
    requires p in tasks && p in tasks' && Pending(tasks[p], u) == [] && Pending(tasks'[p], u) == [c]
    requires forall t | t in tasks && t != p :: t in tasks'
    requires forall t | t in tasks' && t != p :: t in tasks && tasks'[t] == tasks[t]
    ensures var stored := Changed(before, c);
            Converging(tasks', u, stored, cached) <==>
              && (forall t | t in tasks && Pending(tasks[t], u) != [] ::
                 Changed(stored, Pending(tasks[t], u)[0]) == stored)
              && (forall col: Column :: !Sets(c, col) && !PendingSets(tasks, u, col) ==> Same(before, cached, col))
  {
    hide Changed, Same, Sets;
    var stored := Changed(before, c);
    ChangeByColumn(before, before, c, DelayColumn);
    assert Changed(stored, c) == stored;
    forall col: Column
      ensures PendingSets(tasks', u, col) <==> Sets(c, col) || PendingSets(tasks, u, col)
      ensures !Sets(c, col) ==> (Same(stored, cached, col) <==> Same(before, cached, col))
    {
      PendingAlso(tasks, tasks', u, p, c, col);
      ChangeByColumn(before, before, c, col);
      SameIsAnEquivalence(stored, before, cached, col);
      SameIsAnEquivalence(before, stored, cached, col);
    }
  }

  lemma PendingAlso(tasks: map<ID, Task>, tasks': map<ID, Task>, u: ID, p: ID, c: Change, col: Column)
    requires p in tasks && p in tasks' && Pending(tasks[p], u) == [] && Pending(tasks'[p], u) == [c]
    requires forall t | t in tasks && t != p :: t in tasks'
    requires forall t | t in tasks' && t != p :: t in tasks && tasks'[t] == tasks[t]
    ensures PendingSets(tasks', u, col) <==> Sets(c, col) || PendingSets(tasks, u, col)
  {
    hide Sets;
    if Sets(c, col) {
      assert Sets(Pending(tasks'[p], u)[0], col);
    }
    if PendingSets(tasks, u, col) {
      var o :| o in tasks && Pending(tasks[o], u) != [] && Sets(Pending(tasks[o], u)[0], col);
      assert tasks'[o] == tasks[o];
    }
  }

  /** At the commit of an update, in any reachable state and among whatever other requests: the guard holds if and only
      if in every continuation without restart, removal and later change of the user, table and map agree on what the
      user has set as soon as nothing of theirs is under way. */
  lemma {:induction false} SafeToCommitIffWillAgree(prior: seq<Move>, u: ID, p: ID, x: Env, c: Change)
    requires AllAllowed(COLD, prior)
    requires var s := After(COLD, prior);
             Known(s, u) && Allowed(s, Act(p, x)) && CommitAt(s, Act(p, x), u) == [c]
    ensures var s := After(COLD, prior);
            SafeToCommit(s, u, c) <==> WillAgree(Next(s, Act(p, x)), u)
  {
    hide Sane, Next, Allowed, After, AllAllowed, WillAgree, StoredIn, CachedIn, Changed, Same, Sets, Converging,
      PendingSets;
    var s := After(COLD, prior);
    var e := Act(p, x);
    AlwaysSane(prior);
    CommitIsNoUpset(s, e, u);
    SaneNext(s, e);
    StoredNext(s, e, u);
    CachedNext(s, e, u);
    TasksNext(s, e, u);
    OneChange(Stored(s, u), c);
    NoChange(Cached(s, u));
    NotBoth(s.tasks[p], u);
    SafeIsConverging(s.tasks, Next(s, e).tasks, u, p, c, Stored(s, u), Cached(s, u));
    ConvergingIffWillAgree(Next(s, e), u, x);
  }

  lemma CommitIsNoUpset(s: Server, e: Move, u: ID)
    requires CommitAt(s, e, u) != []
    ensures !Upsets(s, e, u) && e.Act? && e.t in s.tasks && AdoptAt(s, e, u) == []
  {
  }
}
