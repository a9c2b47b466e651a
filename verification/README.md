# A model of the home-power monitor

Devices ping a server; a background loop declares silent ones down and their owners are notified; users join by
invite. This project models the three parts of that system that carry state, time and concurrency, and proves what
they keep over every run.

**The timed monitor.** `Uptime` has the record and its four transitions, as a class whose methods are proved against
functions on snapshots. `MaintenanceWindow` has the wrap-around window, `Notifications` what a dispatch call becomes,
`Device` one device under pings, scans, pauses, unpauses, settings changes and writes of other columns, and `Memory`
the critical sections on the shared maps, the scan among them. `Thresholds` says in arithmetic on the stored columns
what one scan or ping does. `Tiling` and `DeviceTiling`, `DeviceRuns` and `Fleet` prove laws of whole runs, of the
transitions, of one device, and of all devices with the server's whole log.

**The registry.** `Models` has the records and the settings checks, `Tables` the SQL tables and their transactions,
and `Rows` what each of these does to each row. The handlers are modelled at two granularities. In `Registry` each is
one atomic step; `Handlers` has them as methods that run against the tables and the maps, `Requests` says when each is
granted and what everybody can see then, and `Agreement` proves that the caches equal the tables after every sequence.
In `Concurrent` every transaction and every critical section is a step of its own, any number of requests interleave,
transactions and writes fail, deferred writes land late and the server restarts; `Ledger`, `SoleAdmin`, `Guests`,
`History` and `Survival` prove what survives, and `Failures` what a failing database does; `Regenerations`,
`Profiles`, `Landing`, `Ghosts`, `Counts` and `Withdrawals` prove exactly when the rest does; `Races`, `Witnesses` and
`GhostRuns` show runs in which it does not; and `Mirror` carries the laws of the timed monitor over to this machine.
Where the code nests one critical section in another, or writes to a table inside one, the parts are separate steps
here, so that the results cover more interleavings than the locks allow; the runs in `Races` keep such parts together.
`Issued` and `SwapOrder` hold what `Regenerations` builds on, `Accounts` what `Profiles` does. `Atomic` ties the two
granularities together, `Locks` is the lock order of the same handlers, and `Sections` proves that the locks cover the
steps.

**The heartbeat clients.** `Client` has the loops of both boards, proved against one machine; `ClientOutcomes` gives
every counter, wait and light of a run by the outcomes of its operations alone; `ClientRuns` and `Composition` prove
their laws and that a well-paced client is never declared down.

`Base` and `Runs` hold shared vocabulary: runs of a machine are folds over their events.

## The clock

Time is an integer number of microseconds, the resolution of the timestamp columns, and every reading of the clock is
a parameter of the event that makes it. The laws about time assume a clock that does not run back. That matters: with
a clock behind the last change `go_down` switches to Down and returns `None`, so the transition is neither notified nor
written (`Tiling.SilentDownNeedsABackwardClock` says exactly when).

## Where the code and its comments differ

The comment at `src/api/user.rs:160-161` says that writing the pause inside the lock keeps the loop's deferred write
from overwriting it. It does not: the loop has left the lock by then, and its write may come after the pause's.
`Races.DeferredDownOverwritesPause` gives the order from every state in which it can start, and
`Witnesses.PauseCanBeUndone` a run from the first start of the server. The exact conditions look at the pause's critical
section. The stored status is Paused from the pause's write on until an unpause, whatever pings, scans, settings and
failures come meanwhile, if and only if at that moment nothing but paused states of the device is on its way to its row
(`Landing.PausedForGoodIffOnlyPausesInFlight`). As long as no later snapshot of the device is taken, the stored row is
the very row of the pause if and only if no other row of the device is on its way at that moment
(`Landing.PauseStaysIffNothingElseInFlight`).

The comment at `src/context.rs:47-48` takes an invite whose token is found for an unused one. Under interleaving a
request may have used the invite and not yet struck its token (`GhostRuns.GuestIsStored` reaches such a state), or have
stored it and not yet listed it; `Withdrawals.ListMatchesRowIffCountStaysRight` says what that does to the count.

## When tables and caches agree under interleaving

For handlers run one at a time tables and maps are equal (`Agreement`). When they interleave, two writers of the same
thing can cross, and then it is false. These are the exact conditions, for a user who is neither entered nor removed
meanwhile and a server that is not restarted.

- *The user's token.* Two token regenerations can cross and leave different tokens in table and map, with both
  accepted (`Races.CrossingRegenerationsDisagree`, `Witnesses.RegenerationsCanCross`). For any number of regenerations
  among any other requests, table, map and token map agree in the end if and only if the last to commit was the last
  to rename and the swaps came in the order of the renamings (`Regenerations.TokensAgreeIffSameOrder`); for two, if
  and only if they commit, rename and swap in the same order. What a handler can look at is exact too: at the commit
  of a regeneration no other of the user is under way and no token but the cached one is accepted, if and only if
  every way on without a later one ends in agreement (`Regenerations.AloneIffWillAgree`).
- *What the user has set:* delay, window, language and the notification flag. Two settings updates can cross and leave
  different delays (`Races.CrossingUpdatesDisagree`, `Witnesses.UpdatesCanCross`). At the commit of an update, every way
  on without a later one ends in agreement if and only if whatever else of the user is under way sets columns only to
  what the table will then hold, and table and map are equal in every column that nothing sets
  (`Profiles.SafeToCommitIffWillAgree`). It is enough that no other update of the user is under way
  (`Profiles.OneAtATimeKeepsAgreement`).
- *The uptime row.* It is the live state if and only if the last snapshot to land is the last one taken
  (`Landing.StoredIsLiveIffLastLandedIsLastTaken`), and always again at rest if each snapshot is taken while no other of
  the device is on its way (`Landing.OneSnapshotAtATimeKeepsTheRow`).
- *The count of used invites.* An invite deleted before it is listed leaves the map counting one more than the table,
  and its token accepted (`GhostRuns.InviteCanHaunt`). Over any run the map gets ahead by the unused invites deleted
  less the invites taken off the list (`Counts.CountsDriftByDeletions`). At the commit of a deletion the count stays
  right if and only if the list has what the row says: an unused invite is on it, a used one neither is nor will be
  (`Withdrawals.ListMatchesRowIffCountStaysRight`).
- *Who is in the map.* `Survival.NobodyIsMissing` proves that no stored user is missing from it, and no unused invite
  from the list, unless a request on its way is about to enter them. The converse is false: a user deleted before they
  are entered comes in afterwards and stays (`GhostRuns.UserCanHaunt`). At the commit of a deletion the user is gone
  from the map for good if and only if no request is about to enter them (`Ghosts.DeletionIsCleanIffNotOnTheWay`); if
  every deletion is guarded so, exactly the stored users are in the map at rest (`Ghosts.NobodyButStoredUsers`).

## Assumptions

Random ids and tokens are never drawn twice. A transaction is atomic and serializable; `delete_invite` selects before
it deletes, and conservation of invites relies on that. A handler runs to its end once it has begun, unless the whole
process stops. Creating an account at the ntfy server succeeds or fails, and is a parameter.

## Model

| member | source | states |
|---|---|---|
| Uptime.UptimeState.New | src/db/models.rs:141-152 | a new record is Uninitialized, with all three times equal |
| Uptime.UptimeState.Touch | src/db/models.rs:155-173 | a ping connects or restores, reporting the time off (zero if the clock ran back), and in every status refreshes the touch |
| Uptime.UptimeState.GoDown | src/db/models.rs:177-187 | only Up goes Down; the time on is returned unless the clock ran back |
| Uptime.UptimeState.Pause | src/db/models.rs:190-200 | Up and Down are remembered and frozen; Paused and Uninitialized are refused unchanged |
| Uptime.UptimeState.Unpause | src/db/models.rs:203-213 | the remembered status returns and both timers restart; anything else is refused unchanged |
| Uptime.RefusalsAreExact | src/db/models.rs:190-213 | a pause is refused as already paused or as not yet connected, an unpause as not paused, and in no other status; what is granted is said column by column |
| Tiling.DurationsTile | src/db/models.rs:155-213 | over any run of the four transitions the first wait, the reported durations and the intervals dropped at unpause lie end to end from creation to the last change |
| Tiling.DurationsAddUp | src/db/models.rs:155-213 | so the durations add up to the age of the last change: nothing is lost or counted twice |
| Tiling.ReportedDurationsAreHonest | src/db/models.rs:165-187 | throughout every reported interval the device held exactly the reported status, and no pause falls inside |
| Tiling.SilentDownNeedsABackwardClock | src/db/models.rs:177-187 | a device goes down without a report if and only if the clock reads less than the last change |
| DeviceTiling.DeviceLifeIsTiled | src/background.rs:17-25 | the tiling law for a device under scans, windows, refused requests and settings as they come |
| DeviceTiling.EveryTimeIsTold | src/api/core.rs:34-53 | the durations dispatched are exactly the times on and off of the tiling, in order and each once, less the times off that end inside a window |
| DeviceTiling.EveryMessageIsTrue | src/notifications.rs:69-109 | with notifications on all along the messages a user reads are the true times on and off in order and each once, less those silenced by a window; with notifications off there are none |
| MaintenanceWindow.UtcMinuteOfDay | src/notifications.rs:126-128 | the minute of the day in which the second lies, in 0..1439 |
| MaintenanceWindow.WindowIsModularInterval | src/db/models.rs:74-82 | membership is (n - s) mod 1440 < (e - s) mod 1440, across midnight or not |
| MaintenanceWindow.OpenIsInWindow | src/db/models.rs:74-82 | at any clock reading of microseconds, membership is the same modular comparison of its minutes |
| MaintenanceWindow.DegenerateWindows | src/db/models.rs:74-82 | with a bound missing the window is never open; with equal bounds, which the checks refuse, always |
| MaintenanceWindow.SwapComplements | src/db/models.rs:74-82 | swapping the bounds yields exactly the complement |
| MaintenanceWindow.AnyDayHoldsTheWindowOnce | src/db/models.rs:74-82 | any 86400 consecutive seconds hold exactly 60 * ((e - s) mod 1440) in-window seconds |
| MaintenanceWindow.EveryDayHasAFreeMinute | src/api/user.rs:247-254 | since a valid window has distinct bounds, a minute outside it begins within a day of any instant |
| Notifications.FormatDuration | src/notifications.rs:24-51 | the parts are in canonical form and stand for exactly the whole minutes of the duration |
| Notifications.CanonicalIsUnique | src/notifications.rs:24-51 | two canonical lists are equal exactly when they stand for the same minutes, so the text loses nothing but seconds |
| Notifications.SentSaysWhatHappened | src/notifications.rs:69-109 | nothing is sent unless notifications are on; then title, length of the ended time, topic and tag say what happened, with a warning exactly for a power-off |
| Device.RunStaysSound | src/db/models.rs:155-213 | under any ordered run of pings, scans, pauses, unpauses and settings a device stays well-formed, with valid settings and no time in the future |
| Thresholds.ScanIsExact | src/background.rs:17-35 | a scan takes down exactly the devices that are Up, touched more than up_delay * 1,000,000 microseconds ago and outside their window, with the true time on; it leaves all others as they are and silent |
| Thresholds.WindowKeepsQuiet | src/background.rs:23-24 | when (minutes - s) mod 1440 < (e - s) mod 1440 a scan changes nothing and neither scan nor ping is told of |
| Thresholds.OnlyTheWindowKeepsQuiet | src/api/core.rs:30-53 | otherwise an Up device goes down exactly when overdue, and a ping that connects or restores is told of with its title and time off |
| Thresholds.PingIsExact | src/db/models.rs:155-173 | a ping sets the touch in every status and window, and brings Up what is Down or Uninitialized, with nothing else changed |
| DeviceRuns.NoFalseAlarm | src/background.rs:17-25 | a device goes down only in a scan strictly more than the current delay, in microseconds, after every earlier ping and accepted unpause, with the modular test for the window failing, from Up, and with a report |
| DeviceRuns.RegularPingsNeverDown | src/background.rs:17-25 | pings within the delay keep a device out of Down, also behind a pause, under every interleaving with scans, pauses, unpauses and settings |
| DeviceRuns.NotificationGrammar | src/api/core.rs:34-53 | "connected" at most once and first, every "power on" directly after a "power off", durations exactly where promised, nothing for a paused device |
| DeviceRuns.NotificationBalance | src/api/core.rs:34-53 | offs less ons less restores kept silent by a window equal the change in being down, a paused device counting as what it returns to |
| DeviceRuns.PausedIsFrozen | src/background.rs:21-22 | pings, scans and repeated pauses change nothing of a paused device but the touch, and send nothing |
| DeviceRuns.PauseIsTransparent | src/db/models.rs:190-213 | pause, anything silent, unpause and a full delay of scans restore the status exactly, restart the timers and send nothing |
| DeviceRuns.DetectionIsExact | src/background.rs:17-35 | a silent device is untouched until the first scan more than touched + delay and outside its window, both in arithmetic, which takes it down with the true time on |
| DeviceRuns.SilentDeviceIsCaught | src/background.rs:8-54 | with scans at most a minute apart that scan comes before touched + delay + 86,400 s and one gap, whatever the valid window |
| Memory.Context.Up | src/api/core.rs:17-59 | one ping under the lock: the touch, at most one dispatch and none in a window, the snapshot |
| Memory.Context.PauseMonitoring | src/api/user.rs:163-177 | the locked part of a pause; a snapshot only if it was accepted |
| Memory.Context.UnpauseMonitoring | src/api/user.rs:182-196 | the locked part of an unpause, likewise |
| Memory.Context.Visit | src/background.rs:17-36 | one entry of the scan: remaining time, paused, window, or down with a report |
| Memory.Context.HandleDown | src/background.rs:8-37 | in any order of visit one scan is the same pointwise update, sends each user the same, collects exactly the rows reported, and sleeps exactly the least of 5 s and the remainders |
| Memory.SleepIsDetermined | src/background.rs:8-20 | the sleep is one number of microseconds from 0 to 5,000,000, and zero exactly if a device is due at this moment |
| Memory.Context.AddState | src/context.rs:28-34 | token and state are entered |
| Memory.Context.AddInvite | src/context.rs:36-45 | the invite is entered and counted for a cached owner |
| Memory.Context.RemoveInvite | src/context.rs:49-54 | exactly the tokens of that invite go; the result says whether there was one |
| Memory.Context.RemoveUserEntry | src/context.rs:57-61 | the user and their current token go |
| Memory.Context.RemoveInviteIds | src/context.rs:64-69 | exactly the tokens of the listed invites go |
| Fleet.DevicesAreIndependent | src/background.rs:13-36 | in a run over the whole map, with all that is written to its entries, each device goes through the states of a run of its own |
| Fleet.LogsAreIndependent | src/background.rs:30-34 | and the calls made for it in the server's log are those of that run, in the same order, whatever order each scan visits the map in |
| Fleet.FleetGrammar | src/api/core.rs:34-53 | grammar and balance of the notifications hold for every user in the server's whole log |
| Fleet.NewcomerGrammar | src/api/core.rs:35-44 | for a user that joins, "connected" comes once at most and first in their whole life in the map |
| Fleet.SilentDeviceReportedInFleet | src/background.rs:17-35 | a silent device gets no call but the one truthful report of the scan that catches it |
| Fleet.RegularDeviceStaysUpInFleet | src/background.rs:13-36 | no false alarm for any device, in state or in the log, whatever the others do |
| Fleet.NoOversleep | src/background.rs:8-20 | a device overdue when the loop wakes on time was overdue at the scan before, never connected, or had its delay lowered meanwhile |
| Mirror.MoveIsOneEvent | src/background.rs:13-36 | every critical section of the interleaved handlers and every scan acts on the users map as one event of the fleet, and every other step leaves it alone |
| Mirror.NotificationsUnderInterleaving | src/api/core.rs:17-59 | between restarts, under any interleaving with ordered clock readings, the calls logged for a user keep grammar and balance |
| Mirror.NoFalseAlarmUnderInterleaving | src/background.rs:13-36 | and a device that pings within its delay is never declared down nor reported |
| Models.AcceptedDelaysSurviveTheCast | src/actions.rs:72-76 | a delay survives the narrowing to i16 as a valid one exactly when it passes the check |
| Models.AcceptedIffAlwaysValid | src/api/user.rs:229-254 | the handler accepts exactly the requests that keep every valid user valid |
| Models.TableAndMemoryUpdatesAgree | src/db/mod.rs:253-282 | the four-way table update equals the field-wise memory update for every user exactly when the bounds come together, as they do in every accepted request |
| Tables.Database.CreateNewState | src/db/mod.rs:26-70 | all three rows and the consumed invite, or nothing |
| Tables.Database.CreateNewInvite | src/db/mod.rs:93-124 | the count and the row within the limit, or nothing |
| Tables.Database.DeleteInviteRow | src/db/mod.rs:133-169 | an owned invite goes, and gives its slot back exactly if unused |
| Tables.Database.DeleteUserRows | src/db/mod.rs:171-196 | the user goes with what the schema cascades, references to them are cleared, and the ntfy row goes |
| Tables.Database.UpdateUserSettings | src/db/mod.rs:246-284 | the delay, the window, both or neither, unless the table's checks refuse |
| Tables.Database.GetAllStates | src/db/mod.rs:72-91 | every joined user exactly once, with the newest uptime row; fails exactly if one has none |
| Tables.Database.LatestUptime | src/db/mod.rs:81-86 | a row of the user than which none of theirs was created later, if there is one |
| Tables.Database.UnusedInvitesOf | src/db/mod.rs:126-131 | exactly the owner's unused invite rows, as the caller narrows them |
| Rows.StateIsStoredIff | src/db/mod.rs:26-70 | a new user is stored exactly if the ids are new, references and window columns pass and the invite is unused; then the invite names them and all other rows stay |
| Rows.InviteIsStoredIff | src/db/mod.rs:93-124 | an invite is stored exactly if its owner is there, below the limit, and its id new; the owner's count goes up by one; at the limit the answer is CreationFailed |
| Rows.InviteGoesIff | src/db/mod.rs:133-169 | exactly one's own invite goes, and exactly an unused one lowers the count by one |
| Rows.UserGoes | src/db/mod.rs:171-196 | who is stored can be deleted; row by row, what goes with them, what is cleared and what stays |
| Rows.UserColumnIsSet | src/db/mod.rs:200-231 | token and language writes set one column of one user |
| Rows.EnabledIsSet | src/db/mod.rs:213-219 | the flag write sets one column of one account |
| Rows.UptimeIsWritten | src/db/mod.rs:233-244 | an uptime write sets four columns of its row and keeps the rest |
| Rows.SettingsAreStoredIff | src/db/mod.rs:246-284 | delay and window are set where given, unless the window that results fails the checks |
| Ledger.CommitBalanced | src/db/mod.rs:26-196 | every transaction keeps the invite books balanced |
| Ledger.InvitesAreConserved | src/db/mod.rs:93-124 | over every sequence of transactions an owner's used count is their unused invites plus all theirs ever consumed, at most max(limit, 0), and no invite is consumed twice |
| Ledger.LoserLeavesNothing | src/db/mod.rs:31-66 | of two requests with the same invite the second to commit leaves no user, ntfy or uptime row, whatever is committed between, be it the winner's deletion |
| Handlers.App.CreateUser | src/actions.rs:30-109 | the method does what the atomic handler function does to tables and maps |
| Handlers.App.CreateInvite | src/actions.rs:117-137 | likewise, with the limit check on the cache first |
| Handlers.App.DeleteInvite | src/api/admin.rs:28-45 | likewise; the cached count drops only if the token was cached |
| Handlers.App.DeleteUser | src/api/admin.rs:49-87 | likewise; succeeds exactly for an existing user other than the caller |
| Handlers.App.RegenerateToken | src/api/user.rs:40-64 | likewise |
| Handlers.App.UpdateSettings | src/api/user.rs:223-282 | likewise; the chain of checks rejects what the specification rejects |
| Handlers.App.UpdateLanguage | src/api/user.rs:134-155 | likewise; accepted exactly for two or three lower-case letters |
| Handlers.App.UpdateNtfySettings | src/api/user.rs:91-112 | likewise |
| Handlers.App.ApiUp | src/api/core.rs:15-65 | likewise, with the dispatch calls it makes |
| Handlers.App.PauseMonitoring | src/api/user.rs:163-178 | likewise; refused requests change and write nothing, nothing is dispatched |
| Handlers.App.UnpauseMonitoring | src/api/user.rs:182-197 | likewise |
| Handlers.App.HandleDownRound | src/background.rs:7-50 | one round: the scan, then its rows written one by one |
| Handlers.App.LoadAll | src/main.rs:86-120 | the startup load succeeds exactly if every joined user has an uptime row, and then the maps are a load of the tables |
| Requests.LanguageAcceptedIff | src/actions.rs:20-28 | a language is accepted exactly if it has two or three characters with ASCII codes 97 to 122 |
| Requests.RejectionIsExact | src/api/user.rs:229-254 | settings are accepted exactly with a delay of 10 to 32767 and a window absent, cleared or of two different minutes 0 to 1439; which check answers otherwise |
| Requests.PreparedIsNewcomer | src/actions.rs:64-89 | an invited user is Normal with limit 0 whatever was asked, the first one an admin with the limit asked for; delay as asked or 60, language and flag as asked, device Uninitialized |
| Requests.JoiningIsExact | src/actions.rs:30-109 | creation is granted exactly under these conditions, in any state of tables and maps; then exactly that user, token and spent invite are new |
| Requests.InvitingIsExact | src/actions.rs:117-137 | an invite is made exactly below the limit of cache and table, and then is listed, unused and counted in both |
| Requests.LimitCanBeReached | src/db/mod.rs:93-124 | from agreement an owner with n slots left gets n new invites listed, and the next is refused |
| Requests.WithdrawingIsExact | src/api/admin.rs:28-45 | an invite is deleted exactly by its owner; its tokens are off the list and the cached count drops if there was one |
| Requests.LeavingIsExact | src/api/admin.rs:49-87 | anybody stored but the caller can be deleted; their token and the tokens of their unused invites go, all others stay |
| Requests.RegeneratingIsExact | src/api/user.rs:40-64 | the new token is accepted, the old one refused, every other as before |
| Requests.SettingIsExact | src/api/user.rs:223-282 | acceptable settings set in the map what they mention; others change nothing |
| Requests.SpeakingIsExact | src/api/user.rs:134-155 | likewise for the language |
| Requests.SwitchingIsExact | src/api/user.rs:91-112 | the flag is set for the caller's own account, in table and map |
| Requests.PausingIsExact | src/api/user.rs:163-197 | a pause is granted exactly while Up or Down, an unpause exactly while Paused; what is granted is written, a refusal changes nothing |
| Requests.PingingIsExact | src/api/core.rs:15-65 | a ping is never refused, and what it makes of the device is written |
| Requests.StrangersChangeNothing | src/bauth.rs:115-169 | nothing changes without an accepted token, nor by the reserved requests without an admin's |
| Requests.HoldersAreServed | src/bauth.rs:144-169 | whoever holds a token is served under the name it stands for |
| Requests.LoadingIsExact | src/main.rs:86-120 | after a restart exactly the users with an account are there, as stored, with the newest of their rows; exactly their tokens and those of the unused invites are accepted |
| Requests.LoadingFailsIff | src/db/mod.rs:72-91 | the load fails exactly if a user with an account has no uptime row |
| Agreement.ReloadChangesNothing | src/main.rs:86-120 | when tables and maps agree, a load succeeds and the maps it can give are exactly the ones there |
| Agreement.HandleAgrees | src/context.rs:28-69 | every handler, scan and restart keeps tables and maps in agreement |
| Agreement.CachesAlwaysAgree | src/main.rs:86-120 | after any sequence of atomic handlers the users are the joined tables, tokens the exact inverse of access tokens, invite tokens exactly the unused invites, one uptime and one ntfy row each; so a restart succeeds and changes nothing |
| Agreement.ScanUptimesAgree | src/background.rs:29-47 | the rows a scan collects and writes bring the uptime table to the scanned map |
| Atomic.RequestIsAtomic | src/bauth.rs:115-169 | the steps of a guarded request, taken in a row, are its atomic handler |
| Atomic.BootIsAtomic | src/actions.rs:30-109 | so are the steps of the first user's creation |
| Atomic.JoinIsAtomic | src/actions.rs:30-109 | and those of an invited user's |
| Atomic.WritesAreAtomic | src/background.rs:39-47 | and the deferred writes of a scan |
| SoleAdmin.OrderlyNext | src/actions.rs:38-69 | every step of every request, scan, failure and restart keeps the invariant behind the single admin |
| SoleAdmin.SoleAdmin | src/actions.rs:34-69 | under any interleaving at most one admin ever exists, is never deleted, and is the only admin in table and map |
| SoleAdmin.InvitesBoundUsers | src/db/mod.rs:98-109 | users ever created, deleted ones included, number at most 1 + max(limit, 0) with the admin's limit, and none before the admin |
| SoleAdmin.NeverEmptyAgain | src/api/admin.rs:55-57 | once the map has users it always has, with the same admin among them, so nobody bootstraps twice |
| SoleAdmin.RestartAlwaysPossible | src/main.rs:86-120 | in every reachable state a load succeeds and brings back every stored user |
| SoleAdmin.BooksBalanceConcurrently | src/db/mod.rs:93-124 | invites are conserved and used once under any interleaving, whatever the stale caches say |
| SoleAdmin.LateJoinerLeavesNothing | src/actions.rs:44-51 | a request whose invite was consumed or deleted after it was found leaves tables and maps as they are |
| Guests.OnlyTheAdminInvites | src/actions.rs:64-69 | under any interleaving whoever is not the one admin has limit 0 in table and map, and every unused invite is the admin's |
| Failures.FailuresAreExact | src/api/admin.rs:59-84 | a request whose database fails ends with nothing changed, but a deletion goes on with no invites collected and the deferred writes with the next row; no other step depends on the database |
| History.PersistedRowsAreHistory | src/api/core.rs:58-63 | under any order of deferred writes, failures and restarts every stored row is the device's first row or a state it really had, and Paused stands exactly with a status to return to |
| History.SettingsStayValid | src/api/user.rs:229-269 | under any interleaving delays stay in 10..32767 and windows null or two distinct minutes, in table and map, and no accepted update is refused by the table's checks |
| Survival.NobodyIsMissing | src/context.rs:28-45 | under any interleaving every stored user is in the map and every unused invite in the list, or carried there by a request; none is listed under another's token |
| Survival.NothingIsMissingAtRest | src/context.rs:28-45 | with nothing in flight all are there |
| Ghosts.DeletionIsCleanIffNotOnTheWay | src/api/admin.rs:67-70 | at the commit of a deletion no request is about to enter the user, if and only if in every continuation they are out of the map once no request concerns them |
| Ghosts.NobodyButStoredUsers | src/context.rs:28-61 | in a run whose deletions are guarded so, exactly the stored users are in the map at rest |
| GhostRuns.UserCanHaunt | src/actions.rs:91-107 | a run from the first start ends at rest with a user in the map, their token accepted, who is not in the table |
| GhostRuns.InviteCanHaunt | src/api/admin.rs:28-45 | another ends at rest with the token of a deleted invite accepted, and the map counting one used invite more than the table |
| Counts.CountsDriftByDeletions | src/context.rs:36-54 | from agreement to any later rest the map gets ahead of the table by the unused invites deleted less those taken off the list |
| Withdrawals.ListMatchesRowIffCountStaysRight | src/api/admin.rs:28-45 | at the commit of the deletion of an invite the list has what the row says, if and only if in every continuation without another deletion the two counts come out equal |
| Issued.TokensNameTheirUsers | src/api/user.rs:40-64 | an access token in table, map or token map belongs to one user, and the token map names that user |
| SwapOrder.OneTokenIffSameOrder | src/api/user.rs:44-59 | after any swaps one token is accepted exactly when they came in the order of the renamings |
| Regenerations.TokensAgreeIffSameOrder | src/api/user.rs:40-64 | among any other requests, table, map and token map agree on a user's token in the end exactly when the last to commit was the last to rename and swaps follow renamings |
| Regenerations.TwoRegenerationsAgreeIffSameOrder | src/api/user.rs:40-64 | of all interleavings of two regenerations exactly those keep agreement in which they commit, rename and swap in the same order |
| Regenerations.OneAtATimeKeepsAgreement | src/api/user.rs:40-64 | regenerations that commit only while no other of the user is under way keep agreement |
| Regenerations.AloneIffWillAgree | src/api/user.rs:40-64 | at the commit of a regeneration no other is under way and no token but the cached one is accepted, if and only if every continuation without a later one ends in agreement |
| Profiles.ProfilesAgreeIffLastChangesDo | src/api/user.rs:256-269 | among any other requests the table holds in every column the last change committed, and the map the last adopted; so they agree where those do, and always when changes are adopted in the order of their commits and none is under way |
| Profiles.SafeToCommitIffWillAgree | src/api/user.rs:256-269 | at the commit of an update, what is under way of the user sets only what the table will then hold and all other columns are equal, if and only if every continuation without a later update ends in agreement |
| Profiles.OneAtATimeKeepsAgreement | src/api/user.rs:134-155 | updates that commit only while no other of the user is under way keep agreement |
| Landing.PauseStaysIffNothingElseInFlight | src/api/user.rs:159-177 | at the pause's critical section no other row of the device is on its way, if and only if in every continuation without failure, restart and later snapshot of the device the stored row is the live one from the pause's write on |
| Landing.PausedForGoodIffOnlyPausesInFlight | src/api/user.rs:159-177 | nothing but paused states of the device is on its way then, if and only if in every continuation, with pings, scans, settings and failures, the stored status is Paused from the pause's write on until an unpause; only the pause's own failure, restarts and removal are excluded |
| Landing.StoredIsLiveIffLastLandedIsLastTaken | src/background.rs:29-47 | under any interleaving the stored row is live exactly when the last snapshot landed is the last taken; always when they land in order and none is pending |
| Landing.OneSnapshotAtATimeKeepsTheRow | src/api/core.rs:17-63 | snapshots taken only while no other of the device is on its way leave the stored row live at rest |
| Races.DeferredDownOverwritesPause | src/api/user.rs:160-177 | from every state with a pause about to meet an overdue device the deferred Down can land last: map Paused, table Down, nothing pending |
| Races.CrossingRegenerationsDisagree | src/api/user.rs:40-64 | two regenerations can cross: table and map keep different tokens and both tokens are accepted |
| Races.CrossingUpdatesDisagree | src/api/user.rs:223-282 | from every state with two settings updates of one user about to commit they can cross: nothing is left under way and table and map keep different delays |
| Witnesses.PauseCanBeUndone | src/api/user.rs:160-177 | a run from the first start reaches such a state, and from there map Paused with table Down |
| Witnesses.RegenerationsCanCross | src/api/user.rs:40-64 | a run from the first start goes through agreement to two crossed regenerations and none left under way |
| Witnesses.UpdatesCanCross | src/api/user.rs:223-282 | a run from the first start goes through agreement to two crossed settings updates and none left under way |
| Locks.HandlersAreDisciplined | src/actions.rs:38-62 | every handler takes pool, init_lock, users, tokens, invite_tokens in that order and frees what it takes |
| Locks.NoCircularWait | src/context.rs:28-69 | no reachable state has a circle of tasks each waiting for a holder or an earlier waiter |
| Locks.NoDeadlock | src/background.rs:13-40 | with any number of tasks and at least one connection, while a task has something left to do some task can go on |
| Locks.WritersAreAlone | src/context.rs:8-15 | whoever holds a map exclusively holds it alone |
| Sections.StepsAreCovered | src/context.rs:8-69 | every step depends on no map but the one its handler has locked for it, and writes only under an exclusive lock |
| Sections.StepsFollowTheOrder | src/api/admin.rs:49-87 | a request enters its sections in the order of its longest way |
| Sections.PlansCoverTheirRequests | src/actions.rs:38-107 | the plan of every handler takes all these locks in this order |
| Client.RunEsp32 | clients/esp32/src/main.rs:162-258 | the nested loops of the ESP32 do what the client machine does, act for act |
| Client.RunPicoW | clients/pico-w/src/main.rs:181-278 | so do those of the Pico W, with its link check |
| Client.ConnectEsp32 | clients/esp32/src/main.rs:180-194 | one connect attempt, its counter, its LED and its backoff |
| Client.BeatEsp32 | clients/esp32/src/main.rs:197-257 | one heartbeat: the reply decides counters, LED, wait, reconnect or halt |
| Client.ConnectPicoW | clients/pico-w/src/main.rs:186-219 | likewise for the Pico W, re-joining first if the link is down |
| Client.BeatPicoW | clients/pico-w/src/main.rs:222-277 | likewise for the Pico W |
| Client.WifiConnect | clients/pico-w/src/main.rs:79-101 | failed joins wait 5 s each, then the address is polled every half second |
| ClientOutcomes.CountersAreOutcomes | clients/esp32/src/main.rs:197-257 | while the client runs, its failure counter is the number of failed connects and requests since the last 200, its 401 counter the trailing 401s, and it is connected as the outcomes say |
| ClientOutcomes.HaltsAtTheFifthDenial | clients/pico-w/src/main.rs:246-258 | it halts exactly when five 401s in a row have come, and stays as it was |
| ClientOutcomes.TraceIsExpected | clients/pico-w/src/main.rs:181-278 | the whole trace by outcomes, in numbers: 100 ms blink, 7 s pause, 2, 4, 8 and then 12 s after failures since the last 200, joins of 5 s, polls of 0.5 s |
| ClientRuns.AuthCounter | clients/esp32/src/main.rs:223-242 | the 401 counter is the trailing run of 401 replies, zero at every connect, and the client halts exactly on five in a row |
| ClientRuns.LedTellsTheTruth | clients/pico-w/src/main.rs:58-77 | the LED is on in every error wait, join and halt, and off in every heartbeat sleep, on both boards |
| ClientRuns.TwinsAgree | clients/pico-w/src/main.rs:181-278 | while the link stays up both boards give the same LED, delay, request and halt trace |
| ClientRuns.TotalBackoffClosed | clients/esp32/src/main.rs:69-71 | the backoffs of f failures add up to 0, 2, 6 and then 12f - 22 seconds |
| ClientRuns.PingsComeInTime | clients/esp32/src/main.rs:197-257 | with f connects and requests failed between two answered heartbeats, these are handled at most 7.1 s, 0, 2, 6 or 12f - 22 s, and f + 2 latencies apart |
| Composition.HeartbeatsKeepTheDeviceUp | clients/esp32/src/main.rs:162-258 | if at most so many attempts fail between two answers and that gap fits the delay, no schedule of scans, pauses, unpauses or settings that respect it ever takes the device down |

## Left out

- HTTP, routing and JSON: requests are modelled as decoded. In particular nothing is said about clearing a window through a JSON null, which the decoder turns into an absent field.
- Delivery of notifications: dispatch calls are an ordered log, sending is asynchronous and unordered.
- The rate limiter, authentication logging, metrics and health check.
- Wording of notifications: plural forms, locales and language fallback. Language codes are checked, but only their form.
- PostgreSQL below the transaction: row locks, isolation levels, connection loss after a commit, legacy rows, the dropped telegram tables.
- Owners and users of rows that are NULL: `user_id` of an uptime row and `owner_id` of an invite are always set by this code.
- Cancellation of a handler in the middle: each runs in a task of its own to its end.
- Panics, and the failure of the load itself other than by a missing uptime row.
- Time below a microsecond, and the rounding of the `f64` seconds in `api_up` before they are cut to whole seconds.
- The `u32` failure counter of the clients: it is a natural number here, so runs of 2^32 failures are not modelled.
- Flashing, WiFi and TLS stacks of the clients, their boot, and the WiFi task of the ESP32.
- Random passphrases and tokens, the command line tool, and deployment files.
- Which entry of a map is visited first, and which of two rows with colliding tokens a load keeps: any may be.
- ClientRuns.PingsComeInTime: an attempt is a request together with the connect just before it, if any; if each single operation takes at most L, an attempt takes at most 2L.
- Agreement.CachesAlwaysAgree: for handlers one at a time and no failed uptime write; it is false otherwise, and `Regenerations`, `Profiles`, `Landing`, `Counts`, `Withdrawals`, `Survival` and `Ghosts` have what then holds.
- Locks.NoDeadlock: a disciplined path stands for each handler; that a task holding locks goes on outside of them, in the database or at the ntfy server, is assumed.
- Handlers.App.LoadAll: metrics set from the loaded rows are not modelled, and rows are keyed by their own id.
