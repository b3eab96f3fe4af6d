# Vesta, verified core

A Dafny model of the stateful and algorithmic parts of Vesta: the agent's turn queue, notification
intake, event bus, event log and provider sign-in (Python, `agent/core`), and the daemon's device
registry, refresh tokens, agent status cache, backups and archive reader (Rust, `vestad/src`), with
the import-cycle check of the repository's convention script.

`dafny verify dfyconfig.toml` checks everything.

## How the modules fit

Code that updates fields is modelled twice: a value-level step function, over which the theorems
range, and a class whose methods change the fields in place and are proved equal to that step. Code
that runs concurrently is a state machine whose steps are the stretches between two awaits, so every
interleaving is a run. Clocks, random ids, rule decisions, network outcomes and failures are
arguments or events.

| module | part of the system |
|---|---|
| `TurnQueue`, `NotificationIntake`, `NotificationFlow`, `NotificationSafety`, `NotificationLoss`, `NotificationOnce`, `TurnLoop` | the processor, its queue watcher and the monitor over one queue and one directory of files |
| `DeviceRegistry`, `Flusher` | device records, presence and the published roster; how they reach the disk |
| `EventBus`, `History`, `SearchIndex` | live delivery, paging backwards, the text index and its migration |
| `CycleFinder` | the three-colour search for import cycles |
| `RefreshTokens` | refresh token families (sections 2.2.2 and 4.14 of RFC 9700) |
| `ReverseLines` | reading a transcript backwards in blocks |
| `Lifecycle` | the status and rate-limit observers |
| `Retention`, `Cadence` | which backups go, and when one is taken |
| `ArArchive` | the `ar` reader and the fixture printer |
| `SignIn` | sign-in and sign-out as a file transaction with rollback |
| `CacheRewrite`, `RequestBody` | the request rewrite that makes prompt caching work |
| `Ordering`, `Options` | sorted names, optional values |

## What the proofs turned up

Where the code falls short of what its comments say, the model follows the code.

- **A file rewritten while its notification is held can be lost.** Files are cleared, and trashed, by name.
  The nightly dream's file is named after its night, so dropping it again while the first dream's turn
  runs deletes the second one unread (`agent/core/loops.py:531-562`, run `NotificationLoss.SecondDreamIsLost`).
  A file rewritten between reading and deciding is trashed by the rule that judged its old content
  (`agent/core/loops.py:104-118`, run `NotificationLoss.RewrittenFileIsTrashedUnjudged`). Over all histories, with
  writes and restart requests at any time, the latest notification of a path is lost exactly when it was
  not delivered and its file was deleted or trashed for an older write, or deleted by an early restart
  request (`LostExactlyWhenOvertakenUnheardOrUnjudged`); the first two take a write made while a
  notification of that file was on its way (`LostWasWrittenWhileHeld`).
- **A rollback is exact only for files without carriage returns and special mode bits.** `read_text` turns
  CRLF into LF and the mode is kept as `& 0o777`, and the rollback writes those back
  (`agent/core/provider.py:174-194`). `SignIn.RollbackRewritesFiles` has a run for each,
  `SignIn.RollbackIsExactWhenRestorable` the exact case.
- **"First sighting ever" can happen twice.** `DeviceRegistry.SightedFirstTwice` is such a run within one process,
  `DeviceRegistry.SightedFirstAgainAfterRestart` one across a restart that comes before the flush. A device is
  unknown, and so sighted first, exactly when it never was sighted or was dropped since: a clear or a
  prune took its push facet while its record held no descriptor, timezone or position and it was
  offline, or a restart read a file without it (`DeviceRegistry.KnownUnlessDropped`). Only until a restart is a
  device that described itself safe.
- **Clearing a push token clears one owner.** `DeviceRegistry.SecondHolderKeepsTheToken` is a run that
  leaves a second one, `DeviceRegistry.ClearFreesTheToken` the exact case.
- **The cadence slack needs "less than an hour", not "at most"**: `Cadence.AFullHourSlips` is a
  run, for every cadence, in which a full hour on both sides skips a snapshot.
- **Archive names survive exactly when they do not end in whitespace or a slash**; the empty name does.
- **`tools` given as an object is looped over by key**, so its `cache_control` entries stay.
- **A handler dropped in mid-write can tear the device file.** Dropping the request releases the flush lock
  while the blocking write goes on (`vestad/src/device_registry.rs:356-373`): `Flusher.DroppedWriteTearsTheFile` is
  the run, and the file theorems hold for the runs in which no handler is dropped once its write has
  begun (`Flusher.NoneLooseWhenNoneDropped`).
- **A refresh token's predecessor is honoured until the next advance**, not "ONCE" (`vestad/src/state.rs:25-27`):
  `RefreshTokens.RetryIsHonouredAgain`.
- **A failed save does more than make clients sign in again** (`vestad/src/state.rs:61-62`): a revoke that
  was not saved is undone by a restart, `RefreshTokens.UnsavedRevokeComesBack`.
- **A JSON value that is no object is not skipped.** As an event row it fails the whole page
  (`agent/core/events.py:431-440`, not on the notifications channel); as a transcript line with the summary's
  tag it raises past the handlers (`agent/core/client.py:499-519`).
- A failed background flush is retried with the next notification, as its comment says; until then only a
  handler's own flush saves: `Flusher.FailedFlushIsNotRetried`.
- A refresh family is dropped when `exp <= now` (`vestad/src/state.rs:40-42`).

## Model

| member | source | states |
|---|---|---|
| TurnQueue.StepMoves | agent/core/loops.py:282-302 | a step keeps the waiting line, appends one item, takes exactly one out, or at shutdown puts the pending ones behind the queue |
| TurnQueue.StepConserves | agent/core/loops.py:305-366 | every step keeps the multiset of enqueued items equal to those in the line plus those that left |
| TurnQueue.StepKeepsOrder | agent/core/loops.py:316-352 | before shutdown every step keeps "started, then running, then waiting" in enqueue order, preempts aside |
| TurnQueue.StepCountsBoot | agent/core/loops.py:262-267 | every step keeps the boot counter equal to the unfinished boot turns, and never counts below zero |
| TurnQueue.NothingLostNothingTwice | agent/core/loops.py:262-366 | until the processor stops, over every interleaving, each enqueued item is in exactly one place or has left exactly once |
| TurnQueue.PlainTurnsRunInOrder | agent/core/loops.py:305-366 | before shutdown, plain turns run in the order they were enqueued |
| TurnQueue.BootCompletesWithTheLastBootTurn | agent/core/main.py:92-103 | the pending counter is the number of boot turns not yet consumed, so the clamp at zero never fires |
| TurnQueue.BootTurnsAreNotPreempted | agent/core/client.py:107-117 | over every run, nothing is being delivered into a running boot turn |
| TurnQueue.FailureStartsNothing | agent/core/loops.py:242-257 | once a turn has failed, the agent is going down and no further turn starts |
| TurnQueue.FlagsFollowTheRun | agent/core/loops.py:242-360 | over every run, sign-in is what it was last set to, the agent goes down exactly after a shutdown or a failed turn, the running prompt counts as delivered exactly when the CLI received it, and its notifications are in flight until the restart tool is called |
| TurnQueue.NextItemStartsWhileSignedIn | agent/core/loops.py:316-336 | the next item starts exactly while signed in and not going down; signed out it is deferred, going down everything pending goes behind the queue |
| TurnQueue.PreemptsPassEveryGate | agent/core/client.py:107-117 | an item is sent into the running turn exactly when the client takes it, the turn is no boot turn and sign-in holds; otherwise it waits behind what is pending |
| NotificationIntake.PutBatch | agent/core/loops.py:135-166 | queueing a batch puts each of its notifications in exactly one queued turn and touches nothing else |
| NotificationIntake.SectionsPartition | agent/core/loops.py:151-166 | the one or two sections of a batch are non-empty and together hold exactly the batch |
| NotificationIntake.ChosenPartition | agent/core/loops.py:614-618 | the three dispositions divide the new notifications without loss or repeat |
| NotificationIntake.StepHolds | agent/core/loops.py:282-366 | what a step of the processor no longer holds is exactly what it releases |
| NotificationIntake.EveryProcessIsARun | agent/core/loops.py:426-471 | inside the whole system, between crashes, the turn queue is one run of its own model, so its theorems apply |
| NotificationFlow.StepClearsWhatItFinishes | agent/core/loops.py:289-360 | over every history, a step of the processor removes exactly the files it finishes with: those of a turn that ends signed in and delivered, of a delivered preempt, and of what is in flight when the restart tool is called |
| NotificationFlow.UndeliveredTurnKeepsEveryFile | agent/core/loops.py:350-358 | over every history, a turn that ends signed out or whose query never reached the CLI leaves every file as it was |
| NotificationFlow.DeliveredTurnClearsItsFiles | agent/core/loops.py:355-360 | a turn that ends signed in and delivered removes exactly the files it rendered, none if the restart tool already did |
| NotificationFlow.KeptFileRunsAgain | agent/core/loops.py:325-336 | whatever is on disk when a turn ends signed out or undelivered is queued again by the first tick after the restart that lists it |
| NotificationFlow.BatchIsQueuedInSections | agent/core/loops.py:135-166 | a batch is queued behind what was queued as at most two items, the agent's own notifications before the others, each in the order of the batch, none lost or repeated |
| NotificationFlow.TickQueuesAndSnoozes | agent/core/loops.py:600-713 | a tick takes in exactly what it read of paths not remembered, in reading order: what interrupts is queued in sections; what snoozes waits behind what waited, or, at a flush, all of it is queued next in sections and nothing waits |
| NotificationFlow.FlushQueuesEachOnce | agent/core/loops.py:709-711 | over every history, a flushing tick leaves nothing snoozed and each notification snoozed before or by it is in the queue exactly once, never put there before |
| NotificationFlow.TickAnnounces | agent/core/loops.py:614-636 | a tick announces exactly what it takes in, in reading order |
| NotificationFlow.TickTrashes | agent/core/loops.py:104-118 | a tick moves exactly the files a rule trashes, over same-named ones in the trash, and touches no other file |
| NotificationFlow.LoadReadsTheDirectory | agent/core/loops.py:87-101 | a tick reads exactly the listed files that parse, in listing order, removes exactly the listed ones that do not, and forgets exactly the queued paths whose files are gone |
| NotificationSafety.TurnStaysSafe | agent/core/loops.py:347-360 | no step of the processor clears the file of anything undelivered, or of anything else still held |
| NotificationSafety.ScanStaysSafe | agent/core/loops.py:600-651 | a scan takes exactly the new files into care and trashes only contents a rule sent there |
| NotificationSafety.LoadStaysSafe | agent/core/loops.py:87-101 | reading the directory drops malformed files only and forgets no queued path that still has its file |
| NotificationSafety.NothingUndeliveredIsLost | agent/core/loops.py:347-360 | in every history, crashes at any step included, the latest notification written at a path has reached the CLI, or is on disk, or is in the trash because a rule sent that very content there, unless its file was rewritten while held or the restart tool ran before delivery |
| NotificationSafety.WaitingStaysOnDisk | agent/core/client.py:107-132 | whatever was read and still waits is held once and is still the content of its file |
| NotificationSafety.TurnIsTidy | agent/core/loops.py:347-360 | a step that ends a delivered item clears its file, and only sign-in loss or an undelivered query leaves it |
| NotificationSafety.DeliveredFilesGo | agent/core/loops.py:347-360 | over every history, a delivered notification's file is gone once its turn is over, except for what sign-in loss, an undelivered query or a crash left to be read again |
| NotificationLoss.TurnKeepsWhereabouts | agent/core/loops.py:347-360 | with no care taken, a step of the processor deletes a latest content only when it was delivered, for a notification of an older write, or by an early restart request |
| NotificationLoss.EveryPathHasItsStory | agent/core/loops.py:347-360 | over every history, where the latest content of a path is follows from what was deleted and trashed for whom since it was written |
| NotificationLoss.LostExactlyWhenOvertakenUnheardOrUnjudged | agent/core/helpers.py:7-16 | over every history, whatever is written when and whenever a restart is asked for, the latest notification of a path is delivered, on disk, or in the trash by a rule that judged it, if and only if it was delivered or its file was neither deleted nor trashed for an older write, nor deleted by a restart request before delivery |
| NotificationLoss.UnjudgedIsOlder | agent/core/loops.py:612-618 | a scan that trashes a content no rule judged does so for an older write of that file |
| NotificationLoss.LostWasWrittenWhileHeld | agent/core/helpers.py:7-16 | a file deleted or trashed for an older write was itself written while a notification of it was on its way |
| NotificationLoss.WritingOverNothingHeldIsSafe | agent/core/loops.py:65-74 | what is written while nothing of that file is on its way is delivered, on disk, or trashed by a rule that judged it, whatever happens to other files, early restart requests aside |
| NotificationLoss.RewrittenFileIsTrashedUnjudged | agent/core/loops.py:612-618 | the run in which a file rewritten between reading and deciding ends in the trash though no rule judged it |
| NotificationLoss.SecondDreamIsLost | agent/core/loops.py:531-562 | the run in which a nightly dream dropped over a running one is deleted unread |
| NotificationOnce.ScanAnnouncesOnce | agent/core/loops.py:612-650 | a scan announces nothing announced before and accounts for each announcement |
| NotificationOnce.AnnouncedAndQueuedAtMostOnce | agent/core/loops.py:594-651 | in one process a file's content is announced at most once, and then was trashed, or waits snoozed, or was put in exactly one turn, however long the file stays |
| NotificationOnce.RememberedWhileItStands | agent/core/loops.py:594-650 | a path is remembered as queued exactly while it was announced and kept in this process and no reading of the directory has found it absent since |
| NotificationOnce.AnnouncedOncePerStay | agent/core/loops.py:594-651 | a tick announces a path it read exactly when no announcement of it stands, and each path once |
| NotificationOnce.AnnouncedAgainOnlyAfterAbsence | agent/core/loops.py:594-651 | after a tick announced a path and kept its file, no later tick announces that path again, however often it is rewritten, unless in between the process was restarted or a reading of the directory found it absent |
| NotificationOnce.ATickTakesInEveryNewFile | agent/core/loops.py:600-651 | every listed file that parses and is not remembered is announced, and queued, snoozed or trashed as the rules say |
| NotificationOnce.VanishedPathsAreForgotten | agent/core/loops.py:594-597 | a queued path whose file is gone is forgotten |
| TurnLoop.RoundsAreSteps | agent/core/loops.py:322-341 | going through `pending` in one stretch is a run of single rounds |
| TurnLoop.Turns.constructor | agent/core/main.py:99-103 | boot turns are enqueued in order and the non-interruptible ones counted |
| TurnLoop.Turns.ConsumeBootTurn | agent/core/loops.py:262-267 | the counter changes as the model counts a finished item |
| TurnLoop.Turns.RunPending | agent/core/loops.py:322-341 | the loop over `pending`, deferring while unauthenticated and putting back at shutdown, is the model's rounds |
| TurnLoop.Turns.WatcherTakes | agent/core/loops.py:282-302 | the watcher's take and the gates of a preempt are the model's steps |
| TurnLoop.Turns.WatcherSent | agent/core/loops.py:289-299 | a delivered item leaves with its files to clear, a missed one waits |
| TurnLoop.Turns.FinishTurn | agent/core/loops.py:345-360 | the end of a turn and the next start are the model's steps, and files are cleared only when signed in and the query was delivered |
| TurnLoop.Monitor.ClearNotifications | agent/core/helpers.py:7-16 | exactly the named files go |
| TurnLoop.Monitor.TrashFiles | agent/core/loops.py:104-118 | exactly the named files move, replacing same-named trash |
| TurnLoop.Monitor.LoadNotifications | agent/core/loops.py:87-101 | what parses is returned in listing order, what does not is removed, vanished queued paths are pruned |
| TurnLoop.Monitor.ProcessBatch | agent/core/loops.py:135-166 | the queue gains the batch's sections, the agent's own first |
| TurnLoop.Monitor.ScanNotifications | agent/core/loops.py:600-651 | the scan over the loaded files is the model's scan |
| TurnLoop.Monitor.TickEnds | agent/core/loops.py:696-713 | a tick after its rules are loaded is the model's step, flush included |
| TurnLoop.Monitor.TurnEnds | agent/core/loops.py:345-360 | turn end with its file clearing is the model's step |
| TurnLoop.Monitor.PreemptEnds | agent/core/loops.py:289-299 | a preempt's end with its file clearing is the model's step |
| TurnLoop.Monitor.RestartRequested | agent/core/tools.py:28-33 | the restart tool drops the in-flight files as the model does |
| DeviceRegistry.Project | vestad/src/device_registry.rs:386-406 | the roster is strictly id-sorted, lists exactly the known devices, and each entry shows its own record |
| DeviceRegistry.DeviceRegistry.MarkConnected | vestad/src/device_registry.rs:209-229 | the state after a connection, and whether the id was unknown |
| DeviceRegistry.DeviceRegistry.ReportContext | vestad/src/device_registry.rs:237-262 | an unknown id changes nothing; otherwise the stored label is returned and only a real change republishes |
| DeviceRegistry.DeviceRegistry.MarkDisconnected | vestad/src/device_registry.rs:266-283 | the saturating count, dropped at zero with the time stamped |
| DeviceRegistry.DeviceRegistry.UpsertPush | vestad/src/device_registry.rs:287-299 | a push-only record becomes mobile and takes the registration time |
| DeviceRegistry.DeviceRegistry.ClearPushByToken | vestad/src/device_registry.rs:303-313 | one holder of the token, if there is any, loses its push facet |
| DeviceRegistry.DeviceRegistry.PrunePushTokens | vestad/src/device_registry.rs:316-333 | looping over the owners in any order drops the push facet of exactly the holders |
| DeviceRegistry.RosterIsCurrent | vestad/src/device_registry.rs:352-354 | after every run the published roster is the projection of the state, though an unchanged report does not publish |
| DeviceRegistry.LiveHasRecord | vestad/src/device_registry.rs:209-350 | every live id has a record and no count rests at zero |
| DeviceRegistry.CountIsLargestSurplus | vestad/src/device_registry.rs:266-283 | the live count is the largest surplus of connects over disconnects in any recent stretch of the run |
| DeviceRegistry.PresentWhileConnected | vestad/src/device_registry.rs:386-406 | a device is shown present if and only if connects outnumber disconnects over some recent stretch |
| DeviceRegistry.PairedCount | vestad/src/device_registry.rs:266-283 | when no disconnect comes unmatched, the count is all connects less all disconnects |
| DeviceRegistry.CountIsOpenConnections | vestad/src/sync/handler.rs:387-415 | through the connection guards, the count is the number of open connections attached to the device |
| DeviceRegistry.PresentWhileAttached | vestad/src/sync/handler.rs:387-415 | the roster shows a device present if and only if an open connection is attached to it |
| DeviceRegistry.PositionIsLastReported | vestad/src/device_registry.rs:237-262 | a device's position is the last it reported and is stamped with the report that last changed it, whatever happens to its record |
| DeviceRegistry.RecordIsItsHistory | vestad/src/device_registry.rs:209-350 | over every run, restarts included, every field of a device's record is what its history says: its push subscription is the last one registered unless a clear or prune took it since, its kind, descriptor, zone, position and last-seen time what was last told |
| DeviceRegistry.RosterShowsTheHistory | vestad/src/device_registry.rs:386-406 | the published roster shows of each device what its history says, presence included |
| DeviceRegistry.DescribedIsNeverForgotten | vestad/src/device_registry.rs:206-229 | a device has a descriptor exactly when it sent one in this process or was loaded with one, so until a restart it is never sighted first again |
| DeviceRegistry.KnownUnlessDropped | vestad/src/device_registry.rs:206-229 | over every run, restarts included, a device is known if and only if it was loaded, connected or registered, and since then no clear or prune dropped its bare record while it was offline and no restart read a file without it |
| DeviceRegistry.FirstSightingsAreOfTheUnknown | vestad/src/device_registry.rs:206-229 | a connection is reported as a first sighting exactly when its device was never sighted or was dropped since |
| DeviceRegistry.SightedFirstTwice | vestad/src/device_registry.rs:206-208 | a run in one process in which a device's connection is reported as its first sighting twice |
| DeviceRegistry.SightedFirstAgainAfterRestart | vestad/src/device_registry.rs:427-441 | a run in which a device that described itself is sighted first again, after a restart that found no flush of it |
| DeviceRegistry.PruneFreesTheTokens | vestad/src/device_registry.rs:315-350 | no holder remains, only records worth nothing and not live are forgotten, other facets and records are untouched |
| DeviceRegistry.ClearFreesTheToken | vestad/src/device_registry.rs:301-313 | exactly one holder is cleared, so the token is free if and only if at most one device held it |
| DeviceRegistry.SecondHolderKeepsTheToken | vestad/src/device_registry.rs:301-313 | a run in which the token stays with a second device |
| DeviceRegistry.ChangesLeaveAPermit | vestad/src/device_registry.rs:375-383 | any change of the records since the flusher last woke has a permit waiting |
| DeviceRegistry.PermitIsANotice | vestad/src/device_registry.rs:237-262 | a permit waits exactly when, since the flusher woke, anything came but reports that tell nothing new |
| Ordering.StrLeIsCodePointOrder | vestad/src/device_registry.rs:404-406 | the roster's order: a prefix comes first, else the first differing character decides |
| Flusher.NextKeepsOneHolder | vestad/src/device_registry.rs:358-373 | with no write cut loose, only the lock holder is past waiting, and the temporary file is what it wrote |
| Flusher.NextKeepsOrdered | vestad/src/device_registry.rs:358-373 | with no write cut loose, every step keeps file, flushes in progress and memory in snapshot order, and the file moves forward |
| Flusher.FileIsWhole | vestad/src/device_registry.rs:356-373 | under every interleaving, failures and crashes included, the file is one whole past snapshot, as long as no handler is dropped once its write has begun |
| Flusher.NoneLooseWhenNoneDropped | vestad/src/device_registry.rs:356-373 | a write or rename goes on without the lock in a run exactly when some handler was dropped after its write began |
| Flusher.DroppedWriteTearsTheFile | vestad/src/device_registry.rs:356-373 | the run in which a dropped handler's write goes on into the file that another flush renamed into place |
| Flusher.FileNeverGoesBack | vestad/src/device_registry.rs:356-373 | the file never returns to an older snapshot, under the same condition |
| Flusher.RenamedIsDurable | vestad/src/device_registry.rs:356-373 | when a flush succeeds, the file holds what memory held when that flush was asked for, or a later state, under the same condition |
| Flusher.ParkedMeansSaved | vestad/src/device_registry.rs:375-383 | parked with no permit, the file holds memory, unless the background task's own last flush failed, under the same condition |
| Flusher.FailedFlushIsNotRetried | vestad/src/device_registry.rs:374-383 | the run in which a failed flush leaves the file behind |
| EventBus.EventBus.SubscribeQueue | agent/core/events.py:332-336 | a fresh empty queue is registered and nothing else changes |
| EventBus.EventBus.Offer | agent/core/events.py:374-397 | the event is queued, or a full queue is replaced by one marker and unsubscribed |
| EventBus.EventBus.EmitEvent | agent/core/events.py:348-372 | every subscriber is offered the event, in any order, with a row id or a negative one |
| EventBus.EventBus.ChangeState | agent/core/events.py:403-408 | a new state emits one status event, the same state nothing |
| EventBus.StepDelivers | agent/core/events.py:348-397 | every step keeps each queue complete or cut off once |
| EventBus.EveryEventOrACleanCut | agent/core/events.py:332-397 | consumed plus queued is exactly what was emitted since subscribing, or a prefix and one marker with nothing after; the queue never exceeds its capacity; a subscriber neither evicted nor gone missed nothing |
| EventBus.EvictedExactlyOnOverflow | agent/core/events.py:379-401 | a subscriber stays subscribed exactly until it unsubscribes or something is emitted while it holds 1000 unread items |
| EventBus.FoldEndsAtTheBusState | agent/core/api.py:90-110 | folding everything sent over a snapshot taken at any time after subscribing ends at the bus state |
| EventBus.IdsNeverCollide | agent/core/events.py:341-370 | no two events of a session share an id, dropped writes included |
| EventBus.IdsTellWhatIsStored | agent/core/events.py:340-378 | an event takes the next positive row id exactly when it belongs in history, logging is on and its write is kept; any other counts down from -1 |
| EventBus.StatusEventsAreTheChanges | agent/core/events.py:403-408 | over every run, the status events tell exactly the changes of state, each once and in order |
| History.EventLog.ReadPage | agent/core/events.py:410-441 | a page holds the well-formed ones of the newest matching rows, ascending, with a cursor exactly when older matching rows exist; it fails if one of those rows is JSON but no object |
| History.PageIsTheNewestOfItsChannel | agent/core/events.py:410-451 | a page holds exactly the readable rows among the newest of its channel below its cursor, as many as the limit, ascending; it has a cursor exactly when the channel holds more, and that is the oldest of those rows; it fails exactly when one of them is no object |
| History.EventLog.Insert | agent/core/events.py:361-366 | an event is appended under an id above all others |
| History.CursorFalls | agent/core/events.py:410-451 | each cursor lies below the one asked for, so following cursors terminates |
| History.SelectBelow | agent/core/events.py:410-451 | what lies below a page's cursor is exactly what the page left out |
| History.LaterLogsReadTheSame | agent/core/events.py:448-451 | rows appended after a cursor was given out do not change what lies below it |
| History.WalkVisitsEachRowOnce | agent/core/events.py:410-451 | for any limit and either channel, with rows appended between requests, the walk fails exactly when a matching row of the first request is JSON but no object, and otherwise its pages put oldest first are the history at the first request, each row once |
| History.NotificationsNeverFail | agent/core/events.py:443-451 | a page of the notifications channel never fails, because its condition leaves out rows that are no objects |
| History.HistoryIsAscending | agent/core/events.py:443-451 | that history has strictly ascending ids |
| SearchIndex.EventsDb.Migrate | agent/core/events.py:267-276 | each step above the stored version runs once, in order |
| SearchIndex.AdvanceStaysOnTrack | agent/core/events.py:245-276 | each statement of the migration keeps schema, version and postings in step |
| SearchIndex.InsertStaysExact | agent/core/events.py:181-185 | the insert triggers post exactly the indexable row |
| SearchIndex.DeleteStaysExact | agent/core/events.py:187-191 | the delete triggers remove exactly its posting |
| SearchIndex.OnePostingPerIndexableRow | agent/core/events.py:167-276 | from any released schema, with crashes between any statements and any restarts, then any inserts and deletes, each indexable row has exactly one posting and no other id has any |
| SearchIndex.WritesTakeEffect | agent/core/events.py:180-215 | after the migration well-formed rows are stored under the next id and deleted, malformed ones neither |
| SearchIndex.AdvancingIsMigrating | agent/core/events.py:267-274 | a process left alone runs its statements as the migration does, and ends |
| SearchIndex.UnstampedBackfillRepeats | agent/core/events.py:249-258 | without the version gate a second backfill would post every message twice |
| CycleFinder.PackageImportGraph | scripts/check-conventions.py:146-154 | one node a module, and exactly the edges to modules that a level-1 import names up to its first dot or its end |
| CycleFinder.ImportOfAModuleIsAnEdge | scripts/check-conventions.py:146-154 | importing from a module of the package, from inside it, or the module itself makes an edge to it |
| CycleFinder.GraphIsUnique | scripts/check-conventions.py:146-154 | the import graph is closed under its edges and cyclic exactly when the package has an import cycle |
| CycleFinder.Traversal.FindCycle | scripts/check-conventions.py:157-169 | an empty result finishes the module and leaves the shared colours correct; any other is a cycle that repeats no inner module |
| CycleFinder.CloseCycle | scripts/check-conventions.py:161-162 | meeting a module on the stack closes a simple cycle along the stack |
| CycleFinder.AllFinishedMeansAcyclic | scripts/check-conventions.py:157-169 | once all modules are finished there is no cycle |
| CycleFinder.PositionFalls | scripts/check-conventions.py:157-169 | along any path of finished modules the finishing position strictly falls |
| CycleFinder.PackageCycle | scripts/check-conventions.py:178-187 | over all roots with one colour dict, the result is empty if and only if the graph is acyclic |
| CycleFinder.CheckImportCycles | scripts/check-conventions.py:172-188 | exactly the packages with an import cycle are reported, in order, each with one simple cycle |
| CycleFinder.MutualImportsAreReported | scripts/check-conventions.py:171-187 | two modules that import each other are reported, under their package, exactly when the imports are of level 1 |
| RefreshTokens.RefreshRegistry.RegisterFamily | vestad/src/auth.rs:339-351 | the family map after a sign-in |
| RefreshTokens.RefreshRegistry.Rotate | vestad/src/auth.rs:360-385 | the family map and the answer after a refresh |
| RefreshTokens.RefreshRegistry.PruneExpired | vestad/src/state.rs:40-42 | families whose expiry has come are dropped |
| RefreshTokens.RegistryAgreesWithLog | vestad/src/auth.rs:339-385 | in every run the map holds exactly what the log of answers says of each family |
| RefreshTokens.AnsweredByTheLog | vestad/src/auth.rs:360-385 | an unexpired family accepts its newest id by advancing and the one before it by giving the newest again, and nothing else |
| RefreshTokens.ChainHasNoRepeats | vestad/src/auth.rs:353-359 | the ids a family issued are all different, so "older" is well defined |
| RefreshTokens.ReuseRevokes | vestad/src/auth.rs:381-384 | presenting any id but the newest two ends the family |
| RefreshTokens.DeadStaysDead | vestad/src/auth.rs:381-384 | no id of a removed family is accepted again in any continuation, restarts included, that loses nothing to a failed save |
| RefreshTokens.SavedRunsContinue | vestad/src/state.rs:61-72 | when every save succeeds, every continuation is such a one |
| RefreshTokens.UnsavedRevokeComesBack | vestad/src/state.rs:61-72 | the run in which a revoke is not saved, the daemon restarts, and an id of the revoked family is accepted again |
| RefreshTokens.RetryIsHonouredAgain | vestad/src/state.rs:25-27 | the id before the newest is answered with the newest, and presented again it is so again |
| RefreshTokens.OtherFamiliesUntouched | vestad/src/auth.rs:360-385 | a rotation leaves every other unexpired family as it was |
| RefreshTokens.FamilyCoversItsTokens | vestad/src/auth.rs:374-380 | a family's expiry is that of the token it was last handed |
| RefreshTokens.LivingFamilyCoversEveryToken | vestad/src/auth.rs:374-380 | in any continuation that loses nothing to a failed save, a family that is still there expires no earlier than any token ever minted for it |
| ReverseLines.ReverseLines | agent/core/client.py:473-488 | for every content and every block size of at least one, the lines yielded are the non-blank lines of the whole split, last first |
| ReverseLines.SplitPrepend | agent/core/client.py:478-486 | prepending a block can change the first piece of what follows only |
| ReverseLines.SplitIsTheOnlyCut | agent/core/client.py:482-482 | the pieces of a split join to the content and hold no newline |
| ReverseLines.BackwardsReverses | agent/core/client.py:484-488 | the yielded order is the exact reverse of the kept lines |
| ReverseLines.KeptAreTheInked | agent/core/client.py:484-488 | a line among others is kept, where it stands, exactly when it holds a byte other than ASCII white space |
| ReverseLines.ReadCompactionSummary | agent/core/client.py:491-519 | for every reading of a line as an entry and every block size, the last non-blank line that is not skipped decides: its text if it is a summary, nothing if reading it fails, an error if nobody catches the failure |
| Lifecycle.AgentStatusCache.ObserveTransitions | vestad/src/agent_status.rs:470-501 | one pass over the roster is the shared sticky rule, and nothing while observing is off |
| Lifecycle.AgentStatusCache.ObserveRateLimits | vestad/src/agent_status.rs:507-546 | the same for rate-limit windows |
| Lifecycle.AgentStatusCache.ForgetAgent | vestad/src/agent_status.rs:444-463 | both memories of the agent go, no others |
| Lifecycle.PollsSeeSettledAgentsOnly | vestad/src/agent_status.rs:470-546 | a poll reports only what an agent shows that is not starting, restarting or rebuilding while nothing operates on it or the gateway, remembers every such agent, and leaves the memory of others alone |
| Lifecycle.ReportsAreChanges | vestad/src/agent_status.rs:444-554 | over any polls, arming changes, operations and forgets, an agent's reports are the changes among its own qualifying observations |
| Lifecycle.TransitionsAreAdjacentChanges | vestad/src/agent_status.rs:470-501 | reported transitions are exactly the adjacent changes of qualifying statuses since last forgotten |
| Lifecycle.RateLimitsAreAdjacentChanges | vestad/src/agent_status.rs:507-546 | the same for windows, empty observations dropped after a silent seed |
| Retention.ComputeBackupsToDelete | vestad/src/backup.rs:303-337 | the sorted, looping computation lists the ranked-out backups |
| Retention.AgedOutByRank | vestad/src/backup.rs:309-314 | a periodic or pre-restore backup goes exactly when at least the limit of that family are newer |
| Retention.DroppedByRank | vestad/src/backup.rs:318-334 | a pre-update backup goes exactly when its version ranks below the limit by latest capture |
| Retention.DeletesExactlyTheRankedOut | vestad/src/backup.rs:303-337 | a backup is deleted if and only if it is ranked out, and a manual one never |
| Retention.WhatGoes | vestad/src/backup.rs:303-337 | the same spelled out by timestamps: a periodic or pre-restore backup goes exactly when as many of both kinds together as are kept are newer, a pre-update one exactly when as many versions were captured later, untagged ones being of one version |
| Retention.ListsEachDeletedIdOnce | vestad/src/backup.rs:303-337 | with distinct ids each deleted id is listed once and no other |
| Retention.RerunDeletesNothing | vestad/src/backup.rs:303-337 | run again on the survivors in any order, retention deletes nothing |
| Cadence.AgentBackups.SnapshotAgent | vestad/src/maintenance.rs:161-236 | one pass: nothing when backups are off or the agent is young, an error when listing or locking fails, else snapshot if due, supersede periodic ones before an update, then retention, with `forget` allowed to fail |
| Cadence.PassTakesExactlyWhenNothingIsReusable | vestad/src/maintenance.rs:65-98 | a pass takes a snapshot exactly when it is enabled, old enough, listed and locked, its capture works and it can reuse nothing: routine, a periodic or pre-update backup within the cadence less two hours; before an update, a pre-update backup of that version no older than a day |
| Cadence.PassLeavesTheSurvivors | vestad/src/maintenance.rs:186-236 | the store after a pass is what retention lets survive of the listing with the new capture, periodic ones superseded before an update; all of it when `forget` fails |
| Cadence.RetriedUpdateReusesItsSnapshot | vestad/src/maintenance.rs:22-24 | an update tried again within a day reuses the first try's snapshot, and an update from another version takes its own |
| Cadence.NoPassLosesAManualBackup | vestad/src/maintenance.rs:161-236 | whatever is off, locked or failing, no pass loses a manual backup |
| Cadence.StaleFromNthNight | vestad/src/maintenance.rs:69-85 | a capture within an hour of its night turns stale exactly at the n-th pass after it |
| Cadence.EveryNthNight | vestad/src/maintenance.rs:69-85 | from any start, with passes and captures within an hour of the nightly instant, there is a first night, no later than the n-th, on which the store as found is stale, and a snapshot is taken on exactly every n-th night from it, forever |
| Cadence.FreshStartPhase | vestad/src/maintenance.rs:69-85 | when the newest capture found is d nights old, the first snapshot comes n - d nights on |
| Cadence.AFullHourSlips | vestad/src/maintenance.rs:19-23 | for every cadence, a run with one capture a full hour late and one pass a full hour early in which the n-th night's snapshot is skipped |
| ArArchive.ParseAr | vestad/src/egress_net.rs:147-184 | on every input the loop returns what the grammar of members gives, or the first error |
| ArArchive.ParsedReadsTheBytes | vestad/src/egress_net.rs:147-184 | on every input: it parses to a member list exactly when the bytes are the magic and a row of such members, each with its header fields, data and padding, and fails exactly with the first defect there is |
| ArArchive.ParsingUsesEveryByte | vestad/src/egress_net.rs:175-181 | a successful parse accounts for every byte, up to one missing final pad |
| ArArchive.PrintedParses | vestad/src/egress_net.rs:436-455 | a printed archive parses to the same members, names trimmed, odd sizes and padding included |
| ArArchive.RoundTrip | vestad/src/egress_net.rs:436-455 | for ASCII names of up to 16 bytes and sizes of up to ten digits, the round trip is exact if and only if no name ends in whitespace or a slash |
| SignIn.ProviderFiles.SnapshotFiles | agent/core/provider.py:174-181 | the text of each path with universal newlines and its nine permission bits, unless a read fails |
| SignIn.ProviderFiles.RestoreFiles | agent/core/provider.py:184-194 | every path is tried whatever fails before it |
| SignIn.ProviderFiles.ClearInactiveCredentials | agent/core/provider.py:162-171 | the tokens of the other providers go, up to the first failure |
| SignIn.ProviderFiles.Apply | agent/core/provider.py:197-214 | the whole transaction under any schedule of failures |
| SignIn.SuccessIsComplete | agent/core/provider.py:206-209 | an attempt that reports success did all it was asked to |
| SignIn.DoneIsWhatWasAsked | agent/core/provider.py:197-214 | request by request: a finished sign-in stores the provider asked for and the credentials given under mode 0600 and leaves no other provider's token; a finished sign-out leaves no provider and no token |
| SignIn.DoneExactlyWhenNothingFails | agent/core/provider.py:197-214 | a request is done exactly when no file operation it came to failed, and stops unread exactly when reading a snapshotted file did |
| SignIn.AllOrNothing | agent/core/provider.py:197-214 | every step applies in full, or stops before the first change, or puts the snapshotted files back when no rollback operation fails |
| SignIn.EachPathIsRestoredOnItsOwn | agent/core/provider.py:184-194 | whatever fails for the paths before it, a path whose own rollback operations succeed is put back |
| SignIn.PutBackIsExact | agent/core/provider.py:174-194 | a rollback leaves the files as they were if and only if none of the snapshotted ones held a carriage return or a setuid, setgid or sticky bit |
| SignIn.LineEndsBecomeNewlines | agent/core/provider.py:174-181 | what text mode reads: returns before newlines vanish, lone ones become newlines, all else stays |
| SignIn.RollbackIsExactWhenRestorable | agent/core/provider.py:174-214 | a transaction that rolls back cleanly leaves all files as they were if and only if no snapshotted file held a carriage return or a setuid, setgid or sticky bit |
| SignIn.RollbackRewritesFiles | agent/core/provider.py:174-214 | a failing store write after which a token file's line ends, or its setgid bit, differ |
| SignIn.TokensFollowTheProvider | agent/core/provider.py:332-347 | over any sequence of sign-ins and sign-outs with failures and successful rollbacks, a token file exists only for the stored provider |
| CacheRewrite.StripRemovesAll | agent/core/openrouter_cache.py:97-105 | no `cache_control` is left at any depth |
| CacheRewrite.StripIdentifiesAlike | agent/core/openrouter_cache.py:97-105 | two trees strip to the same tree if and only if they differ in `cache_control` entries only |
| CacheRewrite.PinIsIdempotent | agent/core/openrouter_cache.py:108-116 | pinning a pinned text changes nothing, overlapping tokens included |
| CacheRewrite.PinIdentifies | agent/core/openrouter_cache.py:108-116 | two texts pin to the same text if and only if they agree token values aside |
| CacheRewrite.PinReplacesTheFirstToken | agent/core/openrouter_cache.py:108-116 | up to its first token a text is kept, the token becomes the constant one, and what follows is treated the same |
| CacheRewrite.SystemTextsArePinned | agent/core/openrouter_cache.py:108-116 | only texts that start with the billing header are pinned, any other text of a system block stays as it is |
| CacheRewrite.PinBlockIdentifies | agent/core/openrouter_cache.py:108-136 | the same for system blocks, billing text and markers together |
| CacheRewrite.RewriteIsIdempotent | agent/core/openrouter_cache.py:119-139 | rewriting a rewritten body changes nothing |
| CacheRewrite.RewriteChangesNothingElse | agent/core/openrouter_cache.py:119-139 | a body is passed through exactly when there is no caching provider or no non-empty list of system blocks; else provider and session are named and nothing differs but tokens and breakpoints |
| CacheRewrite.OneBreakpointIsLeft | agent/core/openrouter_cache.py:126-136 | when the last system block is an object it carries the marker, and nothing else in system and messages carries `cache_control`, nor in tools unless they are an object that already did |
| CacheRewrite.AlikeBodiesBecomeEqual | agent/core/openrouter_cache.py:119-139 | bodies that differ only in token values and `cache_control` entries become the same body |
| RequestBody.EntriesInTurn | agent/core/openrouter_cache.py:119-139 | rewriting the three entries one after the other is the rewriting of all of them |
| RequestBody.ParsedBody.NeutralizeCch | agent/core/openrouter_cache.py:108-116 | the loop over the system blocks pins each |
| RequestBody.ParsedBody.Transform | agent/core/openrouter_cache.py:119-139 | updating the dict entry by entry gives the rewritten body; when `tools` cannot be looped over it raises with the billing tokens pinned and nothing else changed |

## Left out

- HTTP and WebSocket handlers, Docker, restic, git, systemd, tar, gzip, xz and downloads: I/O around the cores.
- The Claude SDK, prompts and their rendering, logging and provider environment: a queued turn is the list of notifications it renders.
- JWT signing and hashing: a token is an id with an expiry. A save of the family map succeeds or fails as a whole.
- SQLite: a table, an index as a multiset of row ids, and transactions that are atomic; text ranking is out. `json_valid` and Python's parser may disagree on a row; paging allows for it, the index uses SQLite's view alone.
- JSON and UTF-8 decoding: lines are bytes, a stored row says whether and as what it parses.
- A file deleted by someone other than the agent's own steps, and another process writing in the middle of one step: writes fall between steps.
- The proactive check, the dream schedule and the idle grace: when a tick writes a file or flushes is arbitrary.
- TurnLoop.Turns.RunPending: `asyncio` task objects are stages of the model; a cancelled watcher or processor is the step after which nothing is claimed.
- NotificationSafety.NothingUndeliveredIsLost: assumes that no file is rewritten while held and that the restart and stop tools come after delivery; NotificationLoss drops both assumptions and says exactly what is lost.
- ReverseLines.ReadCompactionSummary: reading a line as a transcript entry is an arbitrary function, because JSON is out.
- A file deleted and created again under the same name between two ticks still counts as queued until a restart; its content stays on disk.
- Flusher: steps interleave, so it is a step relation and not a class.
- DeviceRegistry: 32-bit wrap-around of a live count; migrating the legacy store, whose result is a starting state; positions are numbered fixes, so no floating point.
- EventBus: the thread the loop runs on; quarantining a corrupt database.
- Cadence.AgentBackups.SnapshotAgent: each `forget` call succeeds or fails as a whole; capture times parse; what a capture is, its type and version tag included, is an argument.
- Cadence.EveryNthNight: the nightly instant is at least three hours after the epoch, all passes run smoothly, and no backup found is newer than the first capture would be.
- Retention: backup ids and versions are names, capture times numbers that order as the stored strings do.
- SignIn: the set of snapshotted paths is visited in one fixed order; validation of the request comes before and changes no file.
- CacheRewrite.TransformRequest: JSON is a value, so aliasing between parts of a body is not captured; numbers and floats are opaque.
- ArArchive: member data borrowed from the input is copied; names longer than 16 bytes are not printable.
- Lifecycle: the order of polls across threads is the order in which the cache's lock is taken; publishing the roster is out.
