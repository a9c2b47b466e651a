/** The stored records other than the uptime state, and the settings a user may change:
    src/db/models.rs, the validation in src/actions.rs and src/api/user.rs. */
module Models {
  import opened Base
  import opened MaintenanceWindow
  import opened Uptime

  datatype UserType = Normal | Admin

  datatype NtfyUser = NtfyUser(id: ID, enabled: bool, topic: string, username: string, password: string)

  datatype User = User(
    id: ID,
    userType: UserType,
    createdAt: Time,
    invitesLimit: int,
    invitesUsed: int,
    accessToken: string,
    upDelay: int,
    ntfyId: ID,
    languageCode: string,
    maintStart: Option<int>,
    maintEnd: Option<int>)

  datatype UserState = UserState(user: User, ntfy: NtfyUser, uptime: UptimeRow)

  datatype Invite = Invite(
    id: ID,
    createdAt: Time,
    token: string,
    isUsed: bool,
    ownerId: ID,
    userId: Option<ID>)

  const DEFAULT_DELAY := 60
  const MIN_DELAY := 10
  const MAX_DELAY := 32767

  /** The narrowing of an unsigned to a signed 16-bit integer. */
  function AsI16(x: nat): (narrow: int)
    requires x < 0x1_0000
    ensures -0x8000 <= narrow <= 0x7FFF && (x - narrow) % 0x1_0000 == 0
  {
    if x <= 0x7FFF then x else x - 0x1_0000
  }

  /** `User::new`, for an id and a token drawn at random. */
  function NewUser(id: ID, userType: UserType, limit: int, upDelay: Option<nat>, language: string,
                   ntfyId: ID, token: string, now: Time): User
    requires upDelay.Some? ==> upDelay.value < 0x1_0000
  {
    var delay := match upDelay case Some(d) => d case None => DEFAULT_DELAY;
    User(id, userType, now, limit, 0, token, AsI16(delay), ntfyId, language, None, None)
  }

  /** `Invite::new`. */
  function NewInvite(id: ID, owner: ID, token: string, now: Time): Invite {
    Invite(id, now, token, false, owner, None)
  }

  /** What every stored and cached user must satisfy. */
  predicate ValidSettings(u: User) {
    MIN_DELAY <= u.upDelay <= MAX_DELAY && ValidWindow(u.maintStart, u.maintEnd)
  }

  /** The check `create_user` makes on a requested delay. */
  predicate DelayAccepted(upDelay: Option<nat>) {
    upDelay.Some? ==> MIN_DELAY <= upDelay.value <= MAX_DELAY
  }

  /** A delay survives the narrowing and is valid exactly when it passes the check. */
  lemma AcceptedDelaysSurviveTheCast(id: ID, kind: UserType, limit: int, upDelay: nat, language: string,
                                     ntfyId: ID, token: string, now: Time)
    requires upDelay < 0x1_0000
    ensures var u := NewUser(id, kind, limit, Some(upDelay), language, ntfyId, token, now);
            ValidSettings(u) && u.upDelay == upDelay <==> DelayAccepted(Some(upDelay))
    ensures ValidSettings(NewUser(id, kind, limit, None, language, ntfyId, token, now))
  {
  }

  /** A settings request after decoding. The outer `None` of a window bound means the field is absent. */
  datatype UpdateSettings = UpdateSettings(
    upDelay: Option<int>,
    maintStart: Option<Option<int>>,
    maintEnd: Option<Option<int>>)

  datatype SettingsError = BadDelay | OneBoundOnly | MixedBounds | BoundOutOfRange | EmptyWindow

  /** The checks of `update_settings`, in order. */
  function Rejection(req: UpdateSettings): Option<SettingsError> {
    if req.upDelay.Some? && !(MIN_DELAY <= req.upDelay.value <= MAX_DELAY) then Some(BadDelay)
    else if req.maintStart.Some? != req.maintEnd.Some? then Some(OneBoundOnly)
    else match (req.maintStart, req.maintEnd)
         case (Some(a), Some(b)) =>
           if a.Some? != b.Some? then Some(MixedBounds)
           else if a.None? then None
           else if !(0 <= a.value < MINUTES_PER_DAY) || !(0 <= b.value < MINUTES_PER_DAY) then Some(BoundOutOfRange)
           else if a.value == b.value then Some(EmptyWindow)
           else None
         case _ => None
  }

  /** The field-wise update of the cached user. */
  function SettingsInMemory(u: User, req: UpdateSettings): User {
    var u1 := match req.upDelay case Some(d) => u.(upDelay := d) case None => u;
    var u2 := match req.maintStart case Some(s) => u1.(maintStart := s) case None => u1;
    match req.maintEnd case Some(e) => u2.(maintEnd := e) case None => u2
  }

  /** The four-way update of the stored user, `update_user_settings`. */
  function SettingsInTable(u: User, req: UpdateSettings): User {
    var window: Option<(Option<int>, Option<int>)> :=
      match (req.maintStart, req.maintEnd) case (Some(s), Some(e)) => Some((s, e)) case _ => None;
    match (req.upDelay, window)
    case (Some(d), Some((s, e))) => u.(upDelay := d, maintStart := s, maintEnd := e)
    case (Some(d), None) => u.(upDelay := d)
    case (None, Some((s, e))) => u.(maintStart := s, maintEnd := e)
    case (None, None) => u
  }

  /** The handler accepts exactly the requests that keep every valid user valid. */
  lemma AcceptedIffAlwaysValid(req: UpdateSettings, sample: User)
    requires ValidSettings(sample)
    ensures Rejection(req).None? <==> forall u | ValidSettings(u) :: ValidSettings(SettingsInMemory(u, req))
  {
    if Rejection(req).Some? {
      var open := sample.(maintStart := None, maintEnd := None);
      var closed := sample.(maintStart := Some(0), maintEnd := Some(1));
      assert ValidSettings(open) && ValidSettings(closed);
      assert !ValidSettings(SettingsInMemory(open, req)) || !ValidSettings(SettingsInMemory(closed, req));
    }
  }

  /** Table and memory receive the same update for every user exactly when the two bounds come together. */
  lemma TableAndMemoryUpdatesAgree(req: UpdateSettings, sample: User)
    ensures (forall u :: SettingsInTable(u, req) == SettingsInMemory(u, req))
       <==> req.maintStart.Some? == req.maintEnd.Some?
    ensures Rejection(req).None? ==> req.maintStart.Some? == req.maintEnd.Some?
  {
    if req.maintStart.Some? != req.maintEnd.Some? {
      var open := sample.(maintStart := None, maintEnd := None);
      var closed := sample.(maintStart := Some(0), maintEnd := Some(1));
      assert SettingsInTable(open, req) != SettingsInMemory(open, req)
          || SettingsInTable(closed, req) != SettingsInMemory(closed, req);
    }
  }
}
