/** The two views of a handler agree: its steps, taken one after another with nothing in between and no failure of
    the database, do what the atomic handler of Registry does, in the tables and in the maps. */
module Atomic {
  import opened Base
  import opened Uptime
  import opened Models
  import opened Device
  import opened Memory
  import opened Tables
  import opened Registry
  import opened Concurrent
  import Ledger
  import Runs

  /** How many steps a task can still take, roughly. */
  function Stage(task: Task): nat {
    match task
    case BootWaiting(_) => 30
    case BootHolding(_) => 29
    case BootAllowed(_) => 28
    case JoinStart(_) => 30
    case JoinFound(_, _) => 29
    case Consuming(_, _) => 27
    case AddingToken(_, _) => 26
    case AddingUser(_, _) => 25
    case Resolving(_, _) => 20
    case CheckingAdmin(_, _) => 19
    case Serving(_, _) => 18
    case StoringInvite(_) => 6
    case Listing(_) => 5
    case Unlisting(_, _) => 5
    case Counting(_, _) => 1
    case DeletingUser(_, _) => 5
    case DroppingUser(_, _) => 4
    case DroppingToken(_, _) => 3
    case DroppingInvites(_) => 2
    case Renaming(_, _) => 3
    case Swapping(_, _, _) => 2
    case Adopting(_, _) => 2
    case Speaking(_, _) => 2
    case Enabling(_, _, _) => 3
    case Enabled(_, _) => 2
    case Writing(rows) => |rows|
  }

  lemma StageFalls(db: Db, m: Mem, task: Task, x: Env)
    ensures var f := Perform(db, m, task, x); f.next.Some? ==> Stage(f.next.value) < Stage(task)
  {
    hide UpdateSettingsRow, DeleteUser, DeleteInvite, CreateInvite, UnusedOf, CreateState, Prepared, Step, Refused,
      Rejection;
    if EntersGuards(task) {
      hide Creating, Following;
    } else if CreatesUser(task) {
      hide Entering, Following;
    } else {
      LaterStageFalls(db, m, task, x);
    }
  }

  lemma LaterStageFalls(db: Db, m: Mem, task: Task, x: Env)
    requires !CreatesUser(task) && !EntersGuards(task)
    ensures var f := Perform(db, m, task, x); f.next.Some? ==> Stage(f.next.value) < Stage(task)
  {
    hide Creating, Entering, DeleteUser, CreateInvite, OnDevice, DropInvites, HasInvite;
  }

  function TablesAfter(b: Ledger.Books, tx: Option<Ledger.Tx>): Ledger.Books {
    if tx.Some? then Ledger.Commit(b, tx.value) else b
  }

  /** A request run to its end without interruption. */
  function Finish(b: Ledger.Books, m: Mem, task: Task, x: Env): World
    decreases Stage(task)
  {
    var f := Perform(b.db, m, task, x);
    StageFalls(b.db, m, task, x);
    var b' := TablesAfter(b, f.tx);
    if f.next.None? then World(b'.db, f.mem) else Finish(b', f.mem, f.next.value, x)
  }

  lemma OneStep(b: Ledger.Books, m: Mem, task: Task, x: Env)
    ensures var f := Perform(b.db, m, task, x);
            Finish(b, m, task, x) ==
            if f.next.None? then World(TablesAfter(b, f.tx).db, f.mem)
              else Finish(TablesAfter(b, f.tx), f.mem, f.next.value, x)
  {
  }

  function Rest(b: Ledger.Books, f: Effect, x: Env): World {
    var b' := TablesAfter(b, f.tx);
    if f.next.None? then World(b'.db, f.mem) else Finish(b', f.mem, f.next.value, x)
  }

  lemma Serve(b: Ledger.Books, m: Mem, uid: ID, ask: Ask, x: Env)
    ensures Finish(b, m, Serving(uid, ask), x) == Rest(b, First(b.db, m, uid, ask, x), x)
  {
    hide First, Creating, Following;
    OneStep(b, m, Serving(uid, ask), x);
  }

  lemma Follow(b: Ledger.Books, m: Mem, task: Task, x: Env)
    requires !CreatesUser(task) && !EntersGuards(task)
    ensures Finish(b, m, task, x) == Rest(b, Following(b.db, m, task, x), x)
  {
    hide Entering, Creating, Following;
    OneStep(b, m, task, x);
  }

  lemma AddStateIsAtomic(b: Ledger.Books, m: Mem, st: UserState, boot: bool, x: Env)
    ensures Finish(b, m, AddingToken(st, boot), x) == World(b.db, AddUser(AddToken(m, st), st))
  {
    OneStep(b, m, AddingToken(st, boot), x);
    OneStep(b, AddToken(m, st), AddingUser(st, boot), x);
  }

  lemma BootIsAtomic(b: Ledger.Books, m: Mem, o: NewUserReq, x: Env)
    requires o.invite.None? && !x.fails
    ensures Finish(b, m, BootWaiting(o), x) == CreateUser(World(b.db, m), o, x.drawn)
  {
    var st := Prepared(o, x.drawn);
    OneStep(b, m, BootWaiting(o), x);
    OneStep(b, m, BootHolding(o), x);
    OneStep(b, m, BootAllowed(o), x);
    if st.Some? {
      AddStateIsAtomic(Ledger.Commit(b, Ledger.AddState(st.value, None)), m, st.value, true, x);
    }
  }

  lemma JoinIsAtomic(b: Ledger.Books, m: Mem, o: NewUserReq, x: Env)
    requires o.invite.Some? && !x.fails
    ensures Finish(b, m, JoinStart(o), x) == CreateUser(World(b.db, m), o, x.drawn)
  {
    OneStep(b, m, JoinStart(o), x);
    if o.invite.value in m.inviteTokens {
      var invite := m.inviteTokens[o.invite.value];
      OneStep(b, m, JoinFound(o, invite), x);
      var st := Prepared(o, x.drawn);
      if st.Some? {
        var b' := Ledger.Commit(b, Ledger.AddState(st.value, Some(invite)));
        OneStep(b', m, Consuming(st.value, o.invite.value), x);
        AddStateIsAtomic(b', DropInviteToken(m, o.invite.value), st.value, false, x);
      }
    }
  }

  /** The request a task with these drawings stands for. */
  function Whole(token: string, ask: Ask, x: Env): Request {
    match ask
    case AskInvite => ReqCreateInvite(token, x.inviteId, x.token, x.now)
    case AskDropInvite(id) => ReqDeleteInvite(token, id)
    case AskDropUser(target) => ReqDeleteUser(token, target)
    case AskToken => ReqRegenerate(token, x.token)
    case AskSettings(req) => ReqSettings(token, req)
    case AskLanguage(code) => ReqLanguage(token, code)
    case AskEnabled(on) => ReqEnabled(token, on)
    case AskPing => ReqPing(token, x.now, x.at)
    case AskPause => ReqPause(token, x.at)
    case AskUnpause => ReqUnpause(token, x.at)
  }

  /** Whoever passes the guards is served. */
  lemma GuardsAreAtomic(b: Ledger.Books, m: Mem, token: string, ask: Ask, x: Env)
    ensures var w := Finish(b, m, Resolving(token, ask), x);
            var caller := if AdminOnly(ask) then AdminCaller(m, token) else Caller(m, token);
            w == if caller.Some? then Finish(b, m, Serving(caller.value, ask), x) else World(b.db, m)
  {
    hide First, Creating, Following;
    OneStep(b, m, Resolving(token, ask), x);
    if token in m.tokens && AdminOnly(ask) {
      OneStep(b, m, CheckingAdmin(m.tokens[token], ask), x);
    }
  }

  lemma RequestIsAtomic(b: Ledger.Books, m: Mem, token: string, ask: Ask, x: Env)
    requires !x.fails
    ensures Finish(b, m, Resolving(token, ask), x) == Handle(World(b.db, m), Whole(token, ask, x))
  {
    GuardsAreAtomic(b, m, token, ask, x);
    var caller := if AdminOnly(ask) then AdminCaller(m, token) else Caller(m, token);
    if caller.Some? {
      ServiceIsAtomic(b, m, caller.value, ask, x);
    }
  }

  function Service(w: World, uid: ID, ask: Ask, x: Env): World {
    match ask
    case AskInvite => MakeInvite(w, uid, x.inviteId, x.token, x.now)
    case AskDropInvite(id) => DropInvite(w, uid, id)
    case AskDropUser(target) => RemoveUserAs(w, uid, target)
    case AskToken => Regenerate(w, uid, x.token)
    case AskSettings(req) => ChangeSettings(w, uid, req)
    case AskLanguage(code) => ChangeLanguage(w, uid, code)
    case AskEnabled(on) => ChangeEnabled(w, uid, on)
    case AskPing => DeviceAndWrite(w, uid, Ping(x.now, x.at))
    case AskPause => DeviceAndWrite(w, uid, Event.Pause(x.at))
    case AskUnpause => DeviceAndWrite(w, uid, Event.Unpause(x.at))
  }

  lemma ServiceIsAtomic(b: Ledger.Books, m: Mem, uid: ID, ask: Ask, x: Env)
    requires !x.fails
    ensures Finish(b, m, Serving(uid, ask), x) == Service(World(b.db, m), uid, ask, x)
  {
    match ask
    case AskInvite => InviteIsAtomic(b, m, uid, x);
    case AskDropInvite(id) => DropInviteIsAtomic(b, m, uid, id, x);
    case AskDropUser(target) => DropUserIsAtomic(b, m, uid, target, x);
    case AskToken => TokenIsAtomic(b, m, uid, x);
    case AskSettings(req) => SettingsAreAtomic(b, m, uid, req, x);
    case AskLanguage(code) => LanguageIsAtomic(b, m, uid, code, x);
    case AskEnabled(on) => EnabledIsAtomic(b, m, uid, on, x);
    case AskPing => SnapshotIsAtomic(b, m, uid, ask, Ping(x.now, x.at), x);
    case AskPause => SnapshotIsAtomic(b, m, uid, ask, Event.Pause(x.at), x);
    case AskUnpause => SnapshotIsAtomic(b, m, uid, ask, Event.Unpause(x.at), x);
  }

  lemma InviteIsAtomic(b: Ledger.Books, m: Mem, uid: ID, x: Env)
    requires !x.fails
    ensures Finish(b, m, Serving(uid, AskInvite), x) == MakeInvite(World(b.db, m), uid, x.inviteId, x.token, x.now)
  {
    hide Finish;
    var inv := NewInvite(x.inviteId, uid, x.token, x.now);
    var b' := Ledger.Commit(b, Ledger.AddInvite(inv));
    Serve(b, m, uid, AskInvite, x);
    Follow(b, m, StoringInvite(uid), x);
    Follow(b', m, Listing(inv), x);
    Follow(b', AddInviteToken(m, inv), Counting(uid, 1), x);
  }

  lemma DropInviteIsAtomic(b: Ledger.Books, m: Mem, uid: ID, id: ID, x: Env)
    requires !x.fails
    ensures Finish(b, m, Serving(uid, AskDropInvite(id)), x) == DropInvite(World(b.db, m), uid, id)
  {
    hide Finish;
    var b' := Ledger.Commit(b, Ledger.RemoveInvite(id, uid));
    Serve(b, m, uid, AskDropInvite(id), x);
    Follow(b', m, Unlisting(uid, id), x);
    Follow(b', DropInvites(m, {id}), Counting(uid, -1), x);
  }

  lemma DroppedAlone(b: Ledger.Books, m: Mem, target: ID, ids: set<ID>, x: Env)
    ensures Finish(b, m, DroppingUser(target, ids), x) == World(b.db, DropInvites(RemoveUser(m, target), ids))
  {
    hide Finish, First, DropInvites;
    Follow(b, m, DroppingUser(target, ids), x);
    if target in m.users {
      var token := m.users[target].user.accessToken;
      Follow(b, DropUser(m, target), DroppingToken(token, ids), x);
      Follow(b, DropToken(DropUser(m, target), token), DroppingInvites(ids), x);
    } else {
      Follow(b, m, DroppingInvites(ids), x);
    }
  }

  lemma DropUserIsAtomic(b: Ledger.Books, m: Mem, uid: ID, target: ID, x: Env)
    requires !x.fails
    ensures Finish(b, m, Serving(uid, AskDropUser(target)), x) == RemoveUserAs(World(b.db, m), uid, target)
  {
    hide Finish, DeleteUser, RemoveUser, DropInvites;
    var ids := UnusedOf(b.db, target);
    Serve(b, m, uid, AskDropUser(target), x);
    Follow(b, m, DeletingUser(target, ids), x);
    DroppedAlone(Ledger.Commit(b, Ledger.RemoveUser(target)), m, target, ids, x);
  }

  lemma TokenIsAtomic(b: Ledger.Books, m: Mem, uid: ID, x: Env)
    requires !x.fails
    ensures Finish(b, m, Serving(uid, AskToken), x) == Regenerate(World(b.db, m), uid, x.token)
  {
    hide Finish;
    var b' := Ledger.Commit(b, Ledger.NewToken(uid, x.token));
    Serve(b, m, uid, AskToken, x);
    Follow(b', m, Renaming(uid, x.token), x);
    if uid in m.users {
      var st := m.users[uid];
      var m' := m.(users := m.users[uid := st.(user := st.user.(accessToken := x.token))]);
      Follow(b', m', Swapping(uid, st.user.accessToken, x.token), x);
    }
  }

  lemma AdoptedAlone(b: Ledger.Books, m: Mem, uid: ID, req: UpdateSettings, x: Env)
    ensures Finish(b, m, Adopting(uid, req), x) == World(b.db, OnDevice(m, uid, Settings(req, 0)))
  {
    hide Finish, First, Rejection, SettingsInMemory;
    Follow(b, m, Adopting(uid, req), x);
  }

  lemma SettingsAreAtomic(b: Ledger.Books, m: Mem, uid: ID, req: UpdateSettings, x: Env)
    requires !x.fails
    ensures Finish(b, m, Serving(uid, AskSettings(req)), x) == ChangeSettings(World(b.db, m), uid, req)
  {
    hide Finish, Following, Rejection, Step, UpdateSettingsRow;
    Serve(b, m, uid, AskSettings(req), x);
    AdoptedAlone(Ledger.Commit(b, Ledger.NewSettings(uid, req)), m, uid, req, x);
  }

  lemma LanguageIsAtomic(b: Ledger.Books, m: Mem, uid: ID, code: string, x: Env)
    requires !x.fails
    ensures Finish(b, m, Serving(uid, AskLanguage(code)), x) == ChangeLanguage(World(b.db, m), uid, code)
  {
    hide Finish;
    var b' := Ledger.Commit(b, Ledger.NewLanguage(uid, code));
    Serve(b, m, uid, AskLanguage(code), x);
    Follow(b', m, Speaking(uid, code), x);
  }

  lemma EnabledAlone(b: Ledger.Books, m: Mem, uid: ID, ntfyId: ID, on: bool, x: Env)
    requires !x.fails && uid in m.users
    ensures Finish(b, m, Enabling(uid, ntfyId, on), x)
         == World(SetEnabled(b.db, ntfyId, on), m.(users :=
           m.users[uid := m.users[uid].(ntfy := m.users[uid].ntfy.(enabled := on))]))
  {
    hide Finish, First, SetEnabled;
    Follow(b, m, Enabling(uid, ntfyId, on), x);
    Follow(Ledger.Commit(b, Ledger.NewEnabled(ntfyId, on)), m, Enabled(uid, on), x);
  }

  lemma EnabledIsAtomic(b: Ledger.Books, m: Mem, uid: ID, on: bool, x: Env)
    requires !x.fails
    ensures Finish(b, m, Serving(uid, AskEnabled(on)), x) == ChangeEnabled(World(b.db, m), uid, on)
  {
    hide Finish, Following, SetEnabled;
    Serve(b, m, uid, AskEnabled(on), x);
    if uid in m.users {
      EnabledAlone(b, m, uid, m.users[uid].ntfy.id, on, x);
    }
  }

  lemma WrittenAlone(b: Ledger.Books, m: Mem, row: UptimeRow, x: Env)
    requires !x.fails
    ensures Finish(b, m, Writing([row]), x) == World(UpdateUptime(b.db, row), m)
  {
    hide Finish, First, UpdateUptime;
    Follow(b, m, Writing([row]), x);
    assert [row][1..] == [];
    Follow(Ledger.Commit(b, Ledger.WriteUptime(row)), m, Writing([]), x);
  }

  lemma SnapshotIsAtomic(b: Ledger.Books, m: Mem, uid: ID, ask: Ask, e: Event, x: Env)
    requires !x.fails
    requires (ask == AskPing && e == Ping(x.now, x.at)) || (ask == AskPause && e == Event.Pause(x.at))
             || (ask == AskUnpause && e == Event.Unpause(x.at))
    ensures Finish(b, m, Serving(uid, ask), x) == DeviceAndWrite(World(b.db, m), uid, e)
  {
    hide Finish, Following, UpdateUptime, Refused, Step;
    Serve(b, m, uid, ask, x);
    if uid in m.users && !Refused(m.users[uid], e) {
      WrittenAlone(b, OnDevice(m, uid, e), Step(m.users[uid], e).uptime, x);
    }
  }

  /** The writes of a scan, one by one, are the writes of all its rows. */
  lemma {:induction false} WritesAreAtomic(b: Ledger.Books, m: Mem, rows: seq<UptimeRow>, x: Env)
    requires !x.fails
    ensures Finish(b, m, Writing(rows), x) == World(WriteAll(b.db, rows), m)
    decreases |rows|
  {
    hide Finish, First, UpdateUptime;
    Follow(b, m, Writing(rows), x);
    if rows != [] {
      WritesAreAtomic(Ledger.Commit(b, Ledger.WriteUptime(rows[0])), m, rows[1..], x);
      assert rows == [rows[0]] + rows[1..];
      Runs.FoldConcat(UpdateUptime, b.db, [rows[0]], rows[1..]);
      Runs.FoldOne(UpdateUptime, b.db, rows[0]);
    }
  }
}
