/** What the locks of a handler protect. Every step of a request works on one map at most, under the lock that its
    handler takes for it, and the handler takes these locks in the order of the steps; so the plans of Locks are those
    of
    the steps of Concurrent. */
module Sections {
  import opened Base
  import opened Models
  import opened Device
  import opened Memory
  import opened Tables
  import opened Registry
  import opened Concurrent
  import L = Locks

  datatype Section = Section(lock: L.Lock, mode: L.Mode)

  function Reads(l: L.Lock): Option<Section> {
    Some(Section(l, L.Shared))
  }

  function Writes(l: L.Lock): Option<Section> {
    Some(Section(l, L.Exclusive))
  }

  /** The lock under which a step is made, if it works on a map. */
  function SectionOf(task: Task): Option<Section> {
    match task
    case BootHolding(_) => Reads(L.Users)
    case JoinStart(_) => Reads(L.InviteTokens)
    case Consuming(_, _) => Writes(L.InviteTokens)
    case AddingToken(_, _) => Writes(L.Tokens)
    case AddingUser(_, _) => Writes(L.Users)
    case Resolving(_, _) => Reads(L.Tokens)
    case CheckingAdmin(_, _) => Reads(L.Users)
    case Serving(_, ask) => FirstSection(ask)
    case Listing(_) => Writes(L.InviteTokens)
    case Counting(_, _) => Writes(L.Users)
    case Unlisting(_, _) => Writes(L.InviteTokens)
    case DroppingUser(_, _) => Writes(L.Users)
    case DroppingToken(_, _) => Writes(L.Tokens)
    case DroppingInvites(_) => Writes(L.InviteTokens)
    case Renaming(_, _) => Writes(L.Users)
    case Swapping(_, _, _) => Writes(L.Tokens)
    case Adopting(_, _) => Writes(L.Users)
    case Speaking(_, _) => Writes(L.Users)
    case Enabled(_, _) => Writes(L.Users)
    case _ => None
  }

  function FirstSection(ask: Ask): Option<Section> {
    match ask
    case AskInvite => Reads(L.Users)
    case AskEnabled(_) => Reads(L.Users)
    case AskPing => Writes(L.Users)
    case AskPause => Writes(L.Users)
    case AskUnpause => Writes(L.Users)
    case _ => None
  }

  /** The two states of the maps are the same in what the lock protects. */
  predicate SameUnder(m: Mem, m': Mem, l: L.Lock) {
    match l
    case Users => m.users == m'.users
    case Tokens => m.tokens == m'.tokens
    case InviteTokens => m.inviteTokens == m'.inviteTokens
    case _ => true
  }

  /** What a step works on: it looks at no map but that of its section, and writes none but under an exclusive lock. */
  ghost predicate Covered(db: Db, m: Mem, m': Mem, task: Task, x: Env) {
    var f, f', held := Perform(db, m, task, x), Perform(db, m', task, x), SectionOf(task);
    && f.tx == f'.tx && f.next == f'.next
    && (held.Some? ==> SameUnder(f.mem, f'.mem, held.value.lock))
    && (forall l: L.Lock :: held != Some(Section(l, L.Exclusive)) ==> SameUnder(f.mem, m, l))
  }

  lemma CreatingIsCovered(db: Db, m: Mem, m': Mem, task: Task, x: Env)
    requires CreatesUser(task) && (SectionOf(task).Some? ==> SameUnder(m, m', SectionOf(task).value.lock))
    ensures Covered(db, m, m', task, x)
  {
    hide Entering, Following, CreateState, Prepared;
  }

  lemma EnteringIsCovered(db: Db, m: Mem, m': Mem, task: Task, x: Env)
    requires EntersGuards(task) && (SectionOf(task).Some? ==> SameUnder(m, m', SectionOf(task).value.lock))
    ensures Covered(db, m, m', task, x)
  {
    hide Creating, Following, UpdateSettingsRow, DeleteInvite, UnusedOf, Step, Refused, Rejection, LanguageAccepted;
  }

  lemma FollowingIsCovered(db: Db, m: Mem, m': Mem, task: Task, x: Env)
    requires !CreatesUser(task) && !EntersGuards(task)
    requires SectionOf(task).Some? ==> SameUnder(m, m', SectionOf(task).value.lock)
    ensures Covered(db, m, m', task, x)
  {
    hide Creating, Entering, DeleteUser, CreateInvite, Step;
  }

  lemma StepsAreCovered(db: Db, m: Mem, m': Mem, task: Task, x: Env)
    requires SectionOf(task).Some? ==> SameUnder(m, m', SectionOf(task).value.lock)
    ensures Covered(db, m, m', task, x)
  {
    hide Covered, SectionOf;
    if CreatesUser(task) {
      CreatingIsCovered(db, m, m', task, x);
    } else if EntersGuards(task) {
      EnteringIsCovered(db, m, m', task, x);
    } else {
      FollowingIsCovered(db, m, m', task, x);
    }
  }

  // ----- The order of the sections -----

  datatype Way = Home | Enter(lock: L.Lock, mode: L.Mode, next: Way)

  function Reading(l: L.Lock, next: Way): Way {
    Enter(l, L.Shared, next)
  }

  function Updating(l: L.Lock, next: Way): Way {
    Enter(l, L.Exclusive, next)
  }

  /** The sections after this one, on the longest way on. */
  function Later(task: Task): Way {
    match task
    case BootWaiting(_) => Reading(L.Users, Joins())
    case BootHolding(_) => Joins()
    case BootAllowed(_) => Joins()
    case JoinStart(_) => Updating(L.InviteTokens, Joins())
    case JoinFound(_, _) => Updating(L.InviteTokens, Joins())
    case Consuming(_, _) => Joins()
    case AddingToken(_, _) => Updating(L.Users, Home)
    case Resolving(_, ask) => if AdminOnly(ask) then Reading(L.Users, Service(ask)) else Service(ask)
    case CheckingAdmin(_, ask) => Service(ask)
    case Serving(_, ask) => Served(ask)
    case StoringInvite(_) => Updating(L.InviteTokens, Updating(L.Users, Home))
    case Listing(_) => Updating(L.Users, Home)
    case Unlisting(_, _) => Updating(L.Users, Home)
    case DeletingUser(_, _) => Updating(L.Users, Updating(L.Tokens, Updating(L.InviteTokens, Home)))
    case DroppingUser(_, _) => Updating(L.Tokens, Updating(L.InviteTokens, Home))
    case DroppingToken(_, _) => Updating(L.InviteTokens, Home)
    case Renaming(_, _) => Updating(L.Tokens, Home)
    case Enabling(_, _, _) => Updating(L.Users, Home)
    case _ => Home
  }

  function Joins(): Way {
    Updating(L.Tokens, Updating(L.Users, Home))
  }

  /** After the first step of the service. */
  function Served(ask: Ask): Way {
    match ask
    case AskInvite => Updating(L.InviteTokens, Updating(L.Users, Home))
    case AskDropInvite(_) => Updating(L.InviteTokens, Updating(L.Users, Home))
    case AskDropUser(_) => Updating(L.Users, Updating(L.Tokens, Updating(L.InviteTokens, Home)))
    case AskToken => Updating(L.Users, Updating(L.Tokens, Home))
    case AskSettings(_) => Updating(L.Users, Home)
    case AskLanguage(_) => Updating(L.Users, Home)
    case AskEnabled(_) => Updating(L.Users, Home)
    case _ => Home
  }

  function Into(s: Option<Section>, next: Way): Way {
    if s.Some? then Enter(s.value.lock, s.value.mode, next) else next
  }

  /** What comes after the guards. */
  function Service(ask: Ask): Way {
    Into(FirstSection(ask), Served(ask))
  }

  function Ahead(task: Task): Way {
    Into(SectionOf(task), Later(task))
  }

  /** All of the one way comes on the other, in this order. */
  predicate Within(part: Way, whole: Way) {
    part == Home
    || (whole != Home
        && if part.lock == whole.lock && part.mode == whole.mode then Within(part.next, whole.next)
           else Within(part, whole.next))
  }

  lemma {:induction false} WithinItself(w: Way)
    ensures Within(w, w)
  {
    if w != Home { WithinItself(w.next); }
  }

  lemma {:induction false} WithinRest(part: Way, whole: Way)
    requires part != Home && Within(part, whole)
    ensures Within(part.next, whole)
    decreases whole, 1
  {
    if part.lock == whole.lock && part.mode == whole.mode {
      WithinMore(part.next, whole);
    } else {
      WithinRest(part, whole.next);
      WithinMore(part.next, whole);
    }
  }

  lemma {:induction false} WithinMore(part: Way, whole: Way)
    requires whole != Home && Within(part, whole.next)
    ensures Within(part, whole)
    decreases whole, 0
  {
    if part != Home && part.lock == whole.lock && part.mode == whole.mode { WithinRest(part, whole.next); }
  }

  /** The way on from a task: along the longest one, or past the token of a user who is not there. */
  predicate GoesOn(task: Task, next: Option<Task>) {
    next.Some? ==>
      || Ahead(next.value) == Later(task)
      || (task.DroppingUser? && Later(task) == Updating(L.Tokens, Ahead(next.value)))
  }

  lemma CreatingGoesOn(db: Db, m: Mem, task: Task, x: Env)
    requires CreatesUser(task)
    ensures GoesOn(task, Perform(db, m, task, x).next)
  {
    hide Entering, Following, CreateState, Prepared;
  }

  lemma EnteringGoesOn(db: Db, m: Mem, task: Task, x: Env)
    requires EntersGuards(task)
    ensures GoesOn(task, Perform(db, m, task, x).next)
  {
    hide Creating, Following, UpdateSettingsRow, DeleteInvite, UnusedOf, Step, Refused, Rejection, LanguageAccepted,
      OnDevice;
  }

  lemma FollowingGoesOn(db: Db, m: Mem, task: Task, x: Env)
    requires !CreatesUser(task) && !EntersGuards(task)
    ensures GoesOn(task, Perform(db, m, task, x).next)
  {
    hide Creating, Entering, DeleteUser, CreateInvite, OnDevice, DropInvites, HasInvite;
  }

  lemma WayOn(db: Db, m: Mem, task: Task, x: Env)
    ensures GoesOn(task, Perform(db, m, task, x).next)
  {
    hide GoesOn, Perform;
    if CreatesUser(task) {
      CreatingGoesOn(db, m, task, x);
    } else if EntersGuards(task) {
      EnteringGoesOn(db, m, task, x);
    } else {
      FollowingGoesOn(db, m, task, x);
    }
  }

  lemma SameSection(s: Option<Section>, part: Way, whole: Way)
    requires Within(part, whole)
    ensures Within(Into(s, part), Into(s, whole))
  {
  }

  /** A step enters its section, and those it then goes on to follow in order. */
  lemma StepsFollowTheOrder(db: Db, m: Mem, task: Task, x: Env)
    ensures var next := Perform(db, m, task, x).next;
            Within(Into(SectionOf(task), if next.Some? then Ahead(next.value) else Home), Ahead(task))
  {
    hide Perform, SectionOf, Later;
    WayOn(db, m, task, x);
    var next := Perform(db, m, task, x).next;
    var on := if next.Some? then Ahead(next.value) else Home;
    WithinItself(on);
    if next.Some? && on != Later(task) { WithinMore(on, Later(task)); }
    SameSection(SectionOf(task), on, Later(task));
  }

  // ----- The plans -----

  /** The handler a request is served by. */
  function HandlerOf(task: Task): L.Handler
    requires Arrives(task)
  {
    match task
    case BootWaiting(_) => L.CreateFirstUser
    case JoinStart(_) => L.CreateInvitedUser
    case Resolving(_, ask) =>
      match ask
      case AskInvite => L.CreateInvite
      case AskDropInvite(_) => L.DeleteInvite
      case AskDropUser(_) => L.DeleteUser
      case AskToken => L.RegenerateToken
      case AskEnabled(_) => L.UpdateNtfy
      case _ => L.UpdateOwnState
  }

  predicate OfMap(l: L.Lock) {
    l.Users? || l.Tokens? || l.InviteTokens?
  }

  /** The map locks that a list of operations takes. */
  function WayOf(ops: seq<L.Op>): Way {
    if ops == [] then Home
    else if ops[0].Take? && OfMap(ops[0].lock) then Enter(ops[0].lock, ops[0].mode, WayOf(ops[1..]))
    else WayOf(ops[1..])
  }

  function PlanWay(p: L.Plan, after: Way): Way {
    match p
    case Done => after
    case Hold(l, mode, inside, next) =>
      var on := PlanWay(inside, PlanWay(next, after));
      if OfMap(l) then Enter(l, mode, on) else on
  }

  lemma {:induction false} WayOfOps(p: L.Plan, after: seq<L.Op>)
    ensures WayOf(L.Ops(p, after)) == PlanWay(p, WayOf(after))
  {
    if p.Hold? {
      var rest := [L.Free(p.lock)] + L.Ops(p.next, after);
      WayOfOps(p.inside, rest);
      WayOfOps(p.next, after);
      assert rest[1..] == L.Ops(p.next, after);
      assert ([L.Take(p.lock, p.mode)] + L.Ops(p.inside, rest))[1..] == L.Ops(p.inside, rest);
    }
  }

  /** Deleting a user also looks their account up in the map, which is no step here. */
  lemma PlansAreAhead(task: Task)
    requires Arrives(task)
    ensures var way := PlanWay(L.PlanOf(HandlerOf(task)), Home);
            if task.Resolving? && task.ask.AskDropUser?
            then
              && Ahead(task) == Reading(L.Tokens, Reading(L.Users, Service(task.ask)))
              && way == Reading(L.Tokens, Reading(L.Users, Reading(L.Users, Service(task.ask))))
            else way == Ahead(task)
  {
  }

  /** A handler's plan takes every section of its request, in order. */
  lemma PlansCoverTheirRequests(task: Task)
    requires Arrives(task)
    ensures Within(Ahead(task), WayOf(L.Ops(L.PlanOf(HandlerOf(task)), [])))
  {
    hide PlanWay, L.PlanOf, Ahead, Service;
    WayOfOps(L.PlanOf(HandlerOf(task)), []);
    PlansAreAhead(task);
    if task.Resolving? && task.ask.AskDropUser? {
      WithinItself(Service(task.ask));
      WithinMore(Service(task.ask), Reading(L.Users, Service(task.ask)));
    } else {
      WithinItself(Ahead(task));
    }
  }
}
