/** What a failing database does to a request: what it had in mind is not stored, and it goes no further. */
module Failures {
  import opened Base
  import opened Models
  import opened Device
  import opened Memory
  import opened Tables
  import opened Registry
  import opened Concurrent

  /** The step asks something of the database. */
  predicate AsksDatabase(db: Db, m: Mem, task: Task) {
    match task
    case BootAllowed(_) => true
    case JoinFound(_, _) => true
    case Serving(uid, ask) =>
      (match ask
       case AskDropUser(target) => uid != target
       case AskDropInvite(_) => true
       case AskToken => true
       case AskSettings(_) => true
       case AskLanguage(_) => true
       case _ => false)
    case StoringInvite(_) => true
    case DeletingUser(_, _) => true
    case Enabling(_, _, _) => true
    case Writing(rows) => rows != []
    case _ => false
  }

  /** A request whose database fails ends there with nothing changed; but a deletion goes on with no invites to take off
      the list, and the deferred writes go on with the next row. No other step depends on the database. */
  predicate FailsExactly(db: Db, m: Mem, task: Task, x: Env) {
    if !AsksDatabase(db, m, task) then Perform(db, m, task, x) == Perform(db, m, task, x.(fails := !x.fails))
    else
      x.fails ==>
        Perform(db, m, task, x) ==
        Effect(m, None,
               match task
               case Serving(_, AskDropUser(target)) => Some(DeletingUser(target, {}))
               case Writing(rows) => Some(Writing(rows[1..]))
               case _ => None)
  }

  lemma CreatingFails(db: Db, m: Mem, task: Task, x: Env)
    requires CreatesUser(task)
    ensures FailsExactly(db, m, task, x)
  {
    hide Entering, Following, CreateState, Prepared;
  }

  lemma EnteringFails(db: Db, m: Mem, task: Task, x: Env)
    requires EntersGuards(task)
    ensures FailsExactly(db, m, task, x)
  {
    hide Creating, Following, UpdateSettingsRow, DeleteInvite, Step, Refused, Rejection, LanguageAccepted;
  }

  lemma FollowingFails(db: Db, m: Mem, task: Task, x: Env)
    requires !CreatesUser(task) && !EntersGuards(task)
    ensures FailsExactly(db, m, task, x)
  {
    hide Creating, Entering, DeleteUser, CreateInvite, Step, DropInvites, HasInvite;
  }

  lemma FailuresAreExact(db: Db, m: Mem, task: Task, x: Env)
    ensures FailsExactly(db, m, task, x)
  {
    hide FailsExactly;
    if CreatesUser(task) {
      CreatingFails(db, m, task, x);
    } else if EntersGuards(task) {
      EnteringFails(db, m, task, x);
    } else {
      FollowingFails(db, m, task, x);
    }
  }
}
