# Slate: proofs about invitations, busy times and the small protocols around them

Slate takes bookings, writes them into the hosts' calendars, mails the guests,
and shows which times are free. This project models the parts of its API server
where many things happen at once, or where one wrong branch loses a guest or
offers a taken time, and proves what they promise for every input, every
interleaving and every reachable state.

- **Who tells the guest** (`Invitations`, `InvitationInvariant`,
  `InvitationDecisions`, `InvitationAttempts`, `InvitationResults`). A booking change queues a calendar write and an email,
  separately; the write asks the calendar provider to stay quiet only when the
  email will tell the guest; an email that ends unsent queues a `reinvite`; a
  delete waits a bounded number of looks; a booking that takes over another one
  inherits its queued rows. Requests, calendar jobs, emails,
  reinvites and workers are interleaved one database or provider call at a
  time, and any of them may throw or die between two calls.
- **Writing the event out** (`WriteOut`, `WriteOverlap`): claim, create, fill,
  release and move, whatever call fails, or lands and fails: when a destination
  can get a second event, or none, and when a booking has one stored conferencing
  room; for jobs that run alone, and for jobs that overlap call by call.
- **The .ics sequence numbers** (`IcsSequence`) over a meeting's chain of bookings.
- **The busy cache** (`BusyIntervals`, `KeyIndex`, `BusyCache`,
  `CachedBusyProvider`): freshness, staleness, least-recently-used eviction,
  single flight, invalidation by generation with a pruned generation map, two
  secondary indexes, and agreement with the provider it stands in front of.
- **Busy reads of the provider** (`BusyReads`, `Pacing`): the tiling of a range,
  the pool of workers with its shared failure flag, the pacer and the slots.
- **The token-bucket rate limiter** (`RateLimit`), in exact arithmetic.
- **The outbox worker's lanes** (`Lanes`): claims, deliveries, the wake timer.
- **Canonical JSON** (`JsonText`, `JsonUnits`, `StableStringify`), **session tokens**
  (`Base64Url`, `Jwt`) and **open slots** (`OpenSlots`).

Objects that the source updates in place are classes with the same fields; one
method call is one turn of the event loop. Ghost fields record what happened
(every invalidation, every start, every request) so that the invariants can
speak of whole runs. Clocks, random numbers and answers of the database, the
provider and the mail service are parameters.

Where the code does less than its comments or its obvious reading promise, the
project proves exactly when the promise holds:

- A guest is left untold of a quiet change exactly when the email, ending unsent,
  last looked for its calendar change before the request that queued both had
  marked it, or when the change was inherited, quiet already, with no reinvite:
  `NobodyIsLeftUntold`, with a complete trace in `LateTagLosesTheGuest`.
- "Heard from both sides only if the email was mid-send" fails exactly when it was
  not mid-send and its worker could not record that it was accepted
  (`BothSidesExactly`, `LostRecordTellsTwice`). A delete that was never marked has
  the provider notify whenever it is written (`UnmarkedDeleteTellsTwiceIfMailed`).
- A create that ends well has written every host exactly when no destination had
  been claimed without its event being recorded, and no claim failed on a free one
  (any failure of the claim is taken for "already claimed"):
  `EveryHostIsWrittenExactly`, with the run of a dead worker's claim in
  `DeadClaimSkipsTheHost`. Such a claim is never given up: `OrphanIsForever`.
- Jobs that overlap can leave two rooms stored for one booking: a move stores a new
  link while a create has the old one in hand (`MoveOvertakesCreate`). They cannot
  otherwise: `OneRoomUnlessCrossed`.
- A destination gets a second event exactly when a create landed, was reported
  as failed (its answer timed out or could not be read), gave up its claim, and
  another landed: `OneEventExactly`, with the run in `LostAnswerCreatesTwice`.
- The .ics with the highest SEQUENCE need not be the newest among the emails
  queued, when a move in place races a move to a new booking
  (`OvertakenByATakeover`); `QueuedIsNewerExactly` has the condition. Among the
  emails sent it always is, since a confirmation or reschedule of a cancelled
  booking is skipped: `SentIsNewest`.
- Two calendar rows of one booking may be in progress at once (a row scheduled
  for later and never tried holds nobody back), so the model uses the claim rule
  itself rather than "one row at a time".
- A clipped window clipped again equals one clip exactly when intervals with one
  `start|end` id stand at one place in time: `ClipsNestExactly`. It is enough
  that no text with a bar in it parses as a date (`BarsDoNotParseSuffices`).
- A stand-in of acceptable age can be hidden by a fresh window that is older than
  the stale limit (`FreshHidesYounger`), only with a freshness limit above the
  stale limit (`OnlyAgeKeepsFromStandingIn`).
- A read joined in flight that settles by the caller's deadline is at most
  `readTimeoutMs` old unless it settles the very instant the caller joins; one
  that settles later still answers if its timer has not fired: `Settle`.
- Not every event that touches a range touches one of its windows: one whose
  start is not before its end is missed exactly when a seam lies between the two
  (`EventsReadExactly`).
- Waiting `retryAfterMs` is enough exactly when the capacity is at least one
  token: `WaitingIsEnough`. With such a capacity pruning never drops anything:
  `PruneFindsNothing`.
- When the wake timer fires, later wakes asked for before are forgotten (the poll
  picks the rows up): `EarliestArmedExactly` says when the earliest still to come
  is armed.
- Equal values get equal canonical text exactly when the key comparator ties no
  two distinct keys: `CanonicalExactly`. Equal text always means equal values.
- In the slot grid a busy interval with an unparseable bound closes nothing,
  while the busy cache keeps it as touching every window.

## Model

| member | source | states |
|---|---|---|
| InvitationResults.NobodyIsLeftUntold | apps/api/src/calendar-effects.ts:650-701 | over every interleaving, a create or move written while the booking is on has told the guest by email, by the provider or by the reinvite, or has something outstanding, or a reinvite whose last look found no event with anybody to invite from, or found the former booking's email sent, if and only if it is not left untold: quiet, its email ended unsent having last looked for it before it was marked, or inherited from the booking taken over with no reinvite |
| InvitationResults.QuietIsFollowedUp | apps/api/src/email-effects.ts:643-660 | outside that one case, a quiet write whose email ended unsent has its reinvite: the follow-up is queued before the end is recorded |
| InvitationResults.EndsUnsentAfterFollowUp | apps/api/src/outbox.worker.ts:346-419 | a confirmation or reschedule email recorded as skipped or failed has a reinvite for its change, and one only, if and only if the change was marked when the email last looked |
| InvitationResults.LateTagLosesTheGuest | apps/api/src/email-effects.ts:736-752 | a trace in which the mark lands after the email looked for its change and nobody tells the guest |
| InvitationResults.RefusedEmailIsMadeUpFor | apps/api/src/calendar-effects.ts:941-1003 | a run to the end: a create written quietly, its email refused, and the reinvite has the provider invite the guest, once |
| InvitationResults.MutedStaysQuiet | apps/api/src/calendar-effects.ts:650-658 | once the quiet decision is recorded for a create or move, no later attempt writes it with invitations on |
| InvitationResults.ReinviteNotifiesAtMostOnce | apps/api/src/calendar-effects.ts:941-1003 | however often the reinvite is retried or dies between its updates and marks, the provider notifies the guest at most once for it |
| InvitationResults.QuietDeleteHasItsEmailAccepted | apps/api/src/calendar-effects.ts:669-701 | a delete is written quietly only once the mail service has accepted its cancellation email |
| InvitationResults.BothSidesOnlyIf | apps/api/src/calendar-effects.ts:659-694 | why the provider told the guest of a cancellation the mail service had accepted: other guests, no delivering transport, not yet marked, mid-send, or an email whose worker could not record it |
| InvitationResults.BothSidesExactly | apps/api/src/calendar-effects.ts:669-694 | for a tagged single guest on a delivering transport, whom the provider told: "by email too only if mid-send at the last look" holds if and only if it is not the case that it was not mid-send and the email's worker ended without recording that it was accepted |
| InvitationResults.LostRecordTellsTwice | apps/api/src/outbox.worker.ts:326-343 | a trace in which the email is accepted, can only be recorded as failed, and the delete then has the provider cancel as well, never mid-send |
| InvitationResults.UnmarkedDeleteTellsTwiceIfMailed | apps/api/src/calendar-effects.ts:659-668 | a delete its email never marked has the provider notify if and only if it is written, never quietly, whatever the email |
| InvitationResults.DeleteLooksAreBounded | apps/api/src/calendar-effects.ts:669-694 | over its whole life, through all retries, a delete looks at its email at most twice three times |
| InvitationResults.RunCountsLooks | apps/api/src/calendar-effects.ts:669-694 | the looks counted on the mark are exactly the looks taken |
| InvitationResults.EndedMailIsNeverSent | packages/db/src/outbox.ts:363-371 | an email that ended, one taken back by a delete included, is never sent afterwards |
| InvitationDecisions.OthersHearFromTheProvider | apps/api/src/calendar-effects.ts:650-662 | whatever the email: with other guests, a transport that does not deliver, or no mark, a change not already quiet is written with the provider inviting |
| InvitationDecisions.DecidesExactly | apps/api/src/calendar-effects.ts:650-701 | exactly when a row is written quietly, waits for its email, takes it back, or has the provider invite, and for which reason |
| InvitationDecisions.RereadsExactly | apps/api/src/calendar-effects.ts:683-694 | an email that could not be taken back: looked at again up to six times in all, quiet only if it was sent, else the provider cancels |
| InvitationDecisions.TakesBackExactly | packages/db/src/outbox.ts:363-371 | a delete takes its email back if and only if it is queued and nobody is sending it; it then ends unsent |
| InvitationDecisions.QuietWriteIsDecided | apps/api/src/calendar-effects.ts:650-701 | over every run, a row is written quietly only on a transport that delivers and after a decision taken with no other guest, unless it was inherited quiet |
| InvitationDecisions.FindsExactly | apps/api/src/calendar-effects.ts:964-992 | a reinvite that finds an event takes the guest off it, or puts them back if that is done; one that finds none ends |
| InvitationDecisions.DoneAsFound | apps/api/src/calendar-effects.ts:941-1003 | over every run, a reinvite that is done has asked the provider to invite and recorded so if its last look found an event, and ended with nothing to invite from if it found none |
| InvitationDecisions.ReinvitesOnlyTheUnsent | apps/api/src/calendar-effects.ts:954-963 | over every run, the provider is asked to invite after all only for a change written quietly whose email ended unsent |
| InvitationAttempts.ClaimsExactly | packages/db/src/outbox.ts:462-564 | a calendar row can be claimed if and only if it is queued, due, in nobody's hands, and no row before it is queued and active |
| InvitationAttempts.CalGoesOn | apps/api/src/outbox.worker.ts:311-419 | an attempt at a calendar row is never stuck, and may throw or die at any point |
| InvitationAttempts.ReinviteClaimsExactly | packages/db/src/outbox.ts:462-564 | the same for a reinvite, which waits for every row queued before it |
| InvitationAttempts.MailGoesOn | apps/api/src/outbox.worker.ts:311-419 | neither is an attempt at an email, nor its follow-up |
| InvitationAttempts.ReinviteGoesOn | apps/api/src/calendar-effects.ts:941-1003 | nor an attempt at a reinvite |
| InvitationAttempts.CutShortIsRetried | apps/api/src/outbox.worker.ts:346-419 | an attempt that throws, or looks once more, is tried again or given up, and keeps what it wrote and recorded |
| InvitationAttempts.EmailEnds | apps/api/src/outbox.worker.ts:346-419 | which ends of an attempt at an email go on to its follow-up, and which leave it queued |
| InvitationAttempts.FollowsUpExactly | apps/api/src/email-effects.ts:643-660 | an email's unsent end is followed up only for a create or a move and only while the booking is on, by one reinvite |
| InvitationAttempts.ReinviteReadsExactly | apps/api/src/calendar-effects.ts:941-960 | what a reinvite makes of its change and of its email: nothing, wait, or go on |
| InvitationAttempts.OffIsNotWritten | apps/api/src/calendar-effects.ts:435-443 | over every run, once a booking is off a create or move that has not begun is never written, however often it is tried |
| InvitationAttempts.OffIsNotReinvited | apps/api/src/calendar-effects.ts:435-443 | over every run, once a booking is off and no reinvite is under way, no guest is invited after all |
| InvitationAttempts.SkippedOnlyOff | apps/api/src/calendar-effects.ts:435-443 | over every run, a calendar row is skipped only for a booking that is off, and a delete never |
| InvitationInvariant.CalMakesStep | apps/api/src/calendar-effects.ts:404-456 | every step of the calendar job touches only its row, and its email when it takes it back, and keeps what the row records consistent with them |
| InvitationInvariant.TaggedOk | packages/db/src/outbox.ts:255-281 | the mark put on a waiting calendar row names an email of its own kind |
| InvitationInvariant.MailSendsOk | apps/api/src/email-effects.ts:1026-1177 | an email is recorded as sent only after the mail service accepted it, and accepted without a record only when that is noted as lost |
| InvitationInvariant.QueuedRowOk | packages/db/src/outbox.ts:349-353 | an email that ends unsent has one reinvite, however often its end is held back and retried |
| InvitationInvariant.AgainReadsOk | apps/api/src/calendar-effects.ts:941-975 | a reinvite ends with nothing to do only when its change told the guest another way |
| InvitationInvariant.ChangeWrittenOk | apps/api/src/calendar-effects.ts:975-1003 | each of the reinvite's two updates and two marks keeps "notified at most once" |
| InvitationInvariant.StepKeepsInv | apps/api/src/outbox.worker.ts:311-419 | every step of every actor, a worker's death included, keeps the invariant |
| InvitationInvariant.TakeoverStarts | packages/db/src/v2-pilot.ts:821-830 | what a booking inherits from the one it takes over, whatever that one's run has come to, is a start for which all of this holds |
| InvitationInvariant.StepEvolves | packages/db/src/outbox.ts:462-564 | no step of any actor disturbs a row it does not hold: ended rows keep their end, marks are only added to |
| WriteOut.OneEventAndOneRoom | apps/api/src/calendar-effects.ts:545-611 | over any jobs that run one after another, a create that lands and then throws included: a destination with an event is written again only when that create was reported as failed and gave up its claim; only the first destination is asked for a room; all stored room links are equal |
| WriteOut.OneEventExactly | apps/api/src/calendar-effects.ts:579-588 | over such jobs, a destination has at most one event if and only if no create that landed on it gave up its claim and was followed by another that landed |
| WriteOut.LostAnswerCreatesTwice | apps/api/src/calendar.http-provider.ts:625-660 | a create whose answer is lost, and its retry: two events, two rooms asked for, two invitations |
| WriteOut.JobKeepsSound | apps/api/src/calendar-effects.ts:466-611 | one create or move job, whatever fails in it, keeps one claim a destination, every landed event claimed unless disowned, one stored room, and none before the organizer's destination is claimed |
| WriteOut.CalendarWriter.WriteEvent | apps/api/src/calendar-effects.ts:545-611 | the loop over destinations makes exactly the calls and rows of the create job's specification |
| WriteOut.CalendarWriter.MoveEvent | apps/api/src/calendar-effects.ts:466-528 | the loop over stored events makes exactly the calls and rows of the move job's specification |
| WriteOut.OneEventInvites | apps/api/src/calendar-effects.ts:122-133 | of all the calls of one job, those that invite go to one destination |
| WriteOut.InvitesExactly | apps/api/src/calendar-effects.ts:122-133 | a call of a job notifies the guest if and only if the job may and the call is about the first destination the organizer owns, else the booking's first, else the first there is |
| WriteOut.AdoptedExactly | apps/api/src/calendar-effects.ts:562-570 | a retry adopts the room in the organizer's own row if it has one, else one that some row has, and none if none has |
| WriteOut.EveryHostGetsTheRoom | apps/api/src/calendar-effects.ts:545-611 | from any state, every event a create of an online meeting writes for another host names one room, that of the organizer's event or the one adopted, and every event it records stores it, however the job ends |
| WriteOut.EveryHostIsWrittenExactly | apps/api/src/calendar-effects.ts:555-572 | from any state, a create that ends well leaves every host with a recorded event if and only if no destination had been claimed without one, and no claim failed on one that was free |
| WriteOut.DeadClaimSkipsTheHost | packages/db/src/calendar-refs.ts:474-491 | a worker dies between claim and create, and the retry ends well with no call made and no event |
| WriteOut.FailedClaimsLeave | packages/db/src/calendar-refs.ts:474-491 | a claim that fails leaves the rows as they are, or a claim with no event |
| WriteOut.OrphanIsForever | packages/db/src/calendar-refs.ts:474-491 | over any later jobs, a claim without a recorded event stays one and no event is created there |
| WriteOut.RetryAdoptsTheRoom | apps/api/src/calendar-effects.ts:559-571 | a retry that finds the organizer's destination claimed asks for no room, and every event it writes names the one stored |
| WriteOut.StoredRoomIsKept | apps/api/src/calendar-effects.ts:466-528 | a move of a booking that has a room asks for no other |
| WriteOut.MoveReachesEveryEvent | apps/api/src/calendar-effects.ts:466-528 | a move that ends well has updated every stored event |
| WriteOverlap.OneEventExactlyInAnyOverlap | apps/api/src/calendar-effects.ts:545-611 | in every interleaving of creates and moves, call by call: a destination has at most one event if and only if no create that landed on it gave up its claim and was followed by another that landed; only the first destination is asked for a room |
| WriteOverlap.StepKeepsInv | apps/api/src/calendar-effects.ts:466-611 | every call of every job keeps: one claim a destination, held by one job, and nothing created there but what was disowned |
| WriteOverlap.JobGoesOn | apps/api/src/calendar-effects.ts:466-611 | a job is never stuck, whatever the others do, and may die at any point |
| WriteOverlap.OneRoomUnlessCrossed | apps/api/src/calendar-effects.ts:520-528 | in every interleaving all stored links are one link, unless a move stores a new one while a create has another in hand |
| WriteOverlap.CrossedSplitsTheRoom | apps/api/src/calendar-effects.ts:601-611 | whenever that happens before a co-host's create, that create leaves two rooms stored |
| WriteOverlap.MoveOvertakesCreate | apps/api/src/calendar-effects.ts:466-611 | a trace in which it happens |
| WriteOverlap.JobsAreARun | apps/api/src/calendar-effects.ts:466-611 | jobs run one after another, as `WriteOut` runs each alone, are one of these interleavings |
| IcsSequence.SentIsNewest | apps/api/src/email-effects.ts:1054-1060 | no email that is sent is older than a change with its number or a lower one, however changes in place, takeovers by a new booking and failures interleave |
| IcsSequence.QueuedIsNewerExactly | apps/api/src/email-effects.ts:677-752 | a queued email is as new as a change with its number or a lower one if and only if that change was not to a booking that took over from the email's own; no two share a number |
| IcsSequence.ReadIsCurrentExactly | apps/api/src/email-effects.ts:711-713 | an email was built from the meeting as it then was if and only if its booking had not been taken over |
| IcsSequence.OvertakenByATakeover | packages/db/src/v2-pilot.ts:781-788 | a run in which the higher SEQUENCE is queued with the time the meeting no longer has |
| IcsSequence.HighestSequenceIsCurrent | packages/db/src/parity.ts:2218-2223 | once the email of the last change to commit is sent, the highest SEQUENCE sent shows the meeting as it is, whatever became of the other changes |
| IcsSequence.HighestQueuedIsCurrentExactly | packages/db/src/parity.ts:2218-2223 | numbered at least as high as the last change, a queued email shows the meeting as it is if and only if it is about the booking in force |
| IcsSequence.NumberedExactly | apps/api/src/email-effects.ts:677-689 | an email that has read its booking is numbered if and only if it is a move's, a cancellation's, or the confirmation of a booking that took over |
| IcsSequence.CountedOutranksLegacy | apps/api/src/email-effects.ts:163-167 | each of those outranks the fixed SEQUENCE of every kind, and every email numbered before it |
| IcsSequence.FixedNumbersRise | packages/notifications/src/booking-notifier.ts:559-561 | the fixed SEQUENCE of a move is above a confirmation's, a cancellation's above both and the highest there is |
| IcsSequence.CancellationOutranksAllSent | apps/api/src/email-effects.ts:1054-1060 | a cancellation that is numbered outranks every confirmation and move that is ever sent, those sent after it included |
| IcsSequence.NoNumberIsSkipped | packages/db/src/parity.ts:2218-2223 | over every run, the numbers claimed are 1, 2, 3 and so on, each by one email |
| IcsSequence.MovedThenCancelled | apps/api/src/email-effects.ts:677-752 | a run to the end: a move put off once and sent with 3, a cancellation sent with 4, a later move given up |
| BusyIntervals.ClipLoop | apps/api/src/busy-cache.ts:131-147 | the loop over `out` and `seen` computes the clip |
| BusyIntervals.ClipFromHolds | apps/api/src/busy-cache.ts:131-147 | a clip holds only touching intervals of the list, every touching id, none twice |
| BusyIntervals.ClipsNestExactly | apps/api/src/busy-cache.ts:131-147 | clipping a clip to a window inside equals clipping once, for all lists and windows, if and only if equal ids mean equal bounds |
| BusyIntervals.BarsDoNotParseSuffices | apps/api/src/busy-cache.ts:141-142 | it is enough that no text with a bar in it is a date |
| BusyIntervals.ClipIsTheTouchingSet | apps/api/src/busy-cache.ts:131-147 | on texts without bars a clip is the set of the intervals that touch the window, each once |
| BusyIntervals.WidenIsTight | apps/api/src/busy-cache.ts:123-126 | the widened window is the smallest of whole UTC days around the request |
| KeyIndex.AddedIsInverse | apps/api/src/busy-cache.ts:346-366 | filing a key keeps the index exactly inverse to the map |
| KeyIndex.RemovedIsInverse | apps/api/src/busy-cache.ts:373-378 | taking a key out does, and leaves no empty set |
| BusyCache.PickedIsBest | apps/api/src/busy-cache.ts:259-283 | the window picked is usable and no usable one is better: fresh before stale, then the one read last |
| BusyCache.BusyCache.Best | apps/api/src/busy-cache.ts:263-283 | the loop picks that window and drops exactly the connection's windows that are too old |
| BusyCache.BusyCache.Read | apps/api/src/busy-cache.ts:190-232 | a fresh window answers, read less than the limit ago and with no invalidation since it began; else a cooling connection answers from a stand-in or not at all, exactly when none serves; else the caller waits on the covering read, begun now only if none was under way |
| BusyCache.BusyCache.Settle | apps/api/src/busy-cache.ts:223-228 | a read that settles answers with its clip, at most the timeout old when it settles in time; a failed one falls back, to unknown exactly when nothing serves |
| BusyCache.BusyCache.TimeOut | apps/api/src/busy-cache.ts:217-225 | a caller whose time is up gets a stand-in of acceptable age, or unknown exactly when none serves |
| BusyCache.BusyCache.Fallback | apps/api/src/busy-cache.ts:380-398 | a stand-in answers with the clip of one provider answer whose window covers the request, at most the stale limit old; otherwise unknown |
| BusyCache.DroppedStandInForNothing | apps/api/src/busy-cache.ts:266-272 | no window dropped for its age would have answered anything |
| BusyCache.OnlyAgeKeepsFromStandingIn | apps/api/src/busy-cache.ts:389-391 | with a freshness limit no longer than the stale limit, nothing stands in if and only if every covering window is too old |
| BusyCache.FreshHidesYounger | apps/api/src/busy-cache.ts:274-281 | with a longer one, a fresh window past the stale limit hides a younger invalidated one |
| BusyCache.BusyCache.Land | apps/api/src/busy-cache.ts:310-325 | an answer is held clipped, dated from the start of its read, and fresh exactly when its ref was not invalidated since that read began |
| BusyCache.BusyCache.Reject | apps/api/src/busy-cache.ts:326-335 | a failure starts the cooldown of its connection, and forgetting old failures changes nobody else's |
| BusyCache.BusyCache.Finish | apps/api/src/busy-cache.ts:337-342 | a settled read's flight goes, and no later flight lies inside an earlier one |
| BusyCache.BusyCache.Start | apps/api/src/busy-cache.ts:293-352 | a read begins only where no flight covers its window, with the generation of that moment |
| BusyCache.BusyCache.Store | apps/api/src/busy-cache.ts:354-366 | the size stays within the limit; what is evicted was used before all that stays, and is not what was just stored |
| BusyCache.BusyCache.Invalidate | apps/api/src/busy-cache.ts:240-255 | exactly the refs' windows lose freshness, each ref's count grows by one, and pruning forgets no count of a ref with a read under way |
| BusyCache.FlightLands | apps/api/src/busy-cache.ts:318-322 | comparing generations tells exactly whether the ref was invalidated since the read began, pruning notwithstanding |
| BusyCache.BackedForGood | apps/api/src/busy-cache.ts:190-232 | what backed an answer backs it whatever the cache does next |
| CachedBusyProvider.UniqueIsDistinct | apps/api/src/busy-cache.ts:448 | each connection is read once, however often it is named |
| CachedBusyProvider.ListBusy | apps/api/src/busy-cache.ts:441-460 | requests the cache cannot reason about pass through; otherwise it lists if and only if every connection's read is known, else fails with the counts |
| CachedBusyProvider.ListsWhatTheProviderLists | apps/api/src/busy-cache.ts:441-460 | on calendars that do not change, what is listed is the set the provider itself lists, each once, after any reads, invalidations and evictions |
| CachedBusyProvider.ListThrough | apps/api/src/busy-cache.ts:441-460 | a whole request driven through one cache, from any state of it, while other requests, invalidations, answers, failures and timeouts come in any order: if it lists, it lists exactly the connections' events that touch the range |
| Pacing.Pacer.TryStart | apps/api/src/calendar.http-provider.ts:114-126 | a waiter starts exactly when fewer than the limit started in the last second, else it learns to look again just after the oldest of them has aged out |
| Pacing.NoSecondHoldsMore | apps/api/src/calendar.http-provider.ts:107-127 | in every interleaving, any 1000 ms hold at most the limit of starts of one subject |
| Pacing.SleeperStarts | apps/api/src/calendar.http-provider.ts:123-124 | a sleeper that wakes to no new start starts |
| Pacing.Slots.Acquire | apps/api/src/calendar.http-provider.ts:136-150 | a free slot is given at once, else the caller joins the end of the line; free and held slots always make up the size, and nobody waits while one is free |
| Pacing.Slots.Release | apps/api/src/calendar.http-provider.ts:141-146 | a slot goes to whoever waited longest; releasing it again changes nothing |
| Pacing.GrantedInOrder | apps/api/src/calendar.http-provider.ts:130-152 | slots are granted in order of arrival |
| BusyReads.SplitBusyWindow | apps/api/src/calendar.http-provider.ts:160-169 | the windows tile the range, none longer than the span; an empty or inverted range passes through |
| BusyReads.TilesPartition | apps/api/src/calendar.http-provider.ts:155-169 | every instant of the range lies in exactly one window, no other instant in any |
| BusyReads.EventsReadExactly | apps/api/src/calendar.http-provider.ts:155-169 | any event meets some window if and only if it meets the range and no seam between two windows lies at or after its end and at or before its start |
| BusyReads.EveryEventIsRead | apps/api/src/calendar.http-provider.ts:155-159 | an event with a length meets the range if and only if it meets a window |
| BusyReads.InstantOnASeamIsMissed | apps/api/src/calendar.http-provider.ts:155-159 | an event of no length that meets the range is missed by every window if and only if it is on a seam |
| BusyReads.Pool.Take | apps/api/src/calendar.http-provider.ts:469-472 | a free worker takes the next read, and none once one is lost |
| BusyReads.Pool.Fail | apps/api/src/calendar.http-provider.ts:448-456 | a failure is tried again only if it is worth it, fewer than three requests were made and nothing is lost; else the whole read is lost |
| BusyReads.Pool.Wake | apps/api/src/calendar.http-provider.ts:456-457 | after its pause a read is sent again unless a sibling was lost meanwhile |
| BusyReads.Pool.AllAnswered | apps/api/src/calendar.http-provider.ts:467-490 | when every worker has ended, every read was answered, each after one to three requests |
| BusyReads.Pool.OneLossLosesAll | apps/api/src/calendar.http-provider.ts:474-490 | after a loss some worker has thrown, so the read as a whole fails |
| BusyReads.ReadsLoop | apps/api/src/calendar.http-provider.ts:438-462 | the nested loops queue one read for every connection and window |
| BusyReads.ReadOnce | apps/api/src/calendar.http-provider.ts:438-462 | none is queued twice |
| BusyReads.MergeLoop | apps/api/src/calendar.http-provider.ts:495-502 | the loop over the reported intervals keeps the first of each id |
| BusyReads.ListsEachReportedOnce | apps/api/src/calendar.http-provider.ts:492-502 | every interval any window reported is listed, and none twice |
| BusyReads.ListsWhatTouchesTheRange | apps/api/src/calendar.http-provider.ts:402-510 | when every window answered with the events that touch it, the list is exactly the events that touch the range, but for those that fall between two windows |
| BusyReads.ListAttendeeBusy | apps/api/src/calendar.http-provider.ts:536-565 | a person unknown in any window is unknown; else busy whenever some window says so |
| RateLimit.TokenBucketRateLimiter.Take | apps/api/src/rate-limit.ts:56-74 | a request passes exactly when its key's life leaves it a token, whatever was pruned; a refusal names the exact wait; a new key prunes the full buckets of a full map |
| RateLimit.TokenBucketRateLimiter.KeepsTheBound | apps/api/src/rate-limit.ts:40-82 | in any stretch of time at most the capacity and the refill of that time pass, for every key |
| RateLimit.BurstIsBounded | apps/api/src/rate-limit.ts:40-82 | the same for any sequence of requests |
| RateLimit.RefusalsCostNothing | apps/api/src/rate-limit.ts:64-73 | a key always has what it would have had without its refused requests |
| RateLimit.WaitingIsEnough | apps/api/src/rate-limit.ts:72-73 | waiting exactly as told brings a token if and only if the capacity holds one |
| RateLimit.TokenBucketRateLimiter.Prune | apps/api/src/rate-limit.ts:76-81 | exactly the full buckets go, and no key's tokens change |
| RateLimit.TokenBucketRateLimiter.PruneFindsNothing | apps/api/src/rate-limit.ts:76-81 | with a capacity of one or more no stored bucket is full |
| Lanes.OutboxWorker.PumpLane | apps/api/src/outbox.worker.ts:222-233 | a lane claims for its free slots when it is not claiming and has some; a request it cannot serve now stays owed |
| Lanes.OutboxWorker.ClaimReturns | apps/api/src/outbox.worker.ts:234-250 | every claimed row is delivered, and a claim asked for meanwhile begins unless the lane is full |
| Lanes.OutboxWorker.Completes | apps/api/src/outbox.worker.ts:241-247 | the end of a delivery frees its slot and asks the lane to claim |
| Lanes.OutboxWorker.LaneIsBounded | apps/api/src/outbox.worker.ts:113-117 | a lane never has more deliveries than its concurrency nor two claims |
| Lanes.OutboxWorker.Pump | apps/api/src/outbox.worker.ts:212-215 | a poll tick asks every lane to claim: it claims now, or again once its claim returns, or is full and owed one; no other lane is touched, and none when stopped |
| Lanes.OutboxWorker.Wake | apps/api/src/outbox.worker.ts:264-277 | the timer armed is that of the earliest wake asked for since it last fired, and is due in time for all of them or due already |
| Lanes.OutboxWorker.Fire | apps/api/src/outbox.worker.ts:268-275 | it fires for at least one wake that is due, asks every lane to claim, and forgets exactly the wakes not reached yet |
| Lanes.OutboxWorker.EarliestArmedExactly | apps/api/src/outbox.worker.ts:264-277 | at any instant the timer armed is that of the earliest wake still to come if and only if no forgotten one to come is earlier than all asked for since |
| Lanes.SecondWakeIsForgotten | apps/api/src/outbox.worker.ts:268-275 | two wakes after which none is armed for the second |
| Lanes.OutboxWorker.Stop | apps/api/src/outbox.worker.ts:199-205 | a stopped worker has no timer armed and claims nothing more |
| JsonText.DocBack | apps/api/src/stable-stringify.ts:21-30 | a parser reads back every document from the text written for it |
| JsonText.CharsBack | apps/api/src/stable-stringify.ts:27-29 | every string of UTF-16 units, lone surrogates included, is read back from its quoted text |
| JsonUnits.QuotedIsImages | apps/api/src/stable-stringify.ts:27-29 | a string's text, unit by unit: quotes, backslashes and five controls in two units, other controls and surrogates that stand alone in six with lower-case hexadecimal, everything else as it is |
| JsonUnits.Punctuation | apps/api/src/stable-stringify.ts:22-30 | the marks and names around the values are those of JSON |
| StableStringify.ParsesToCanon | apps/api/src/stable-stringify.ts:21-30 | parsing the text recovers the value with its keys sorted and its undefined properties dropped, at every depth |
| StableStringify.EqualTextAgrees | apps/api/src/stable-stringify.ts:1-8 | equal texts mean values that agree up to key order, whatever the comparator |
| StableStringify.OneTextExactlyWhenAgreeing | apps/api/src/stable-stringify.ts:1-8 | where no two keys of an object tie, texts are equal if and only if the values agree |
| StableStringify.CanonicalExactly | apps/api/src/stable-stringify.ts:26 | that holds for all values if and only if the comparator ties no two keys |
| Base64Url.RoundTrip | apps/api/src/jwt.ts:51-56 | every byte sequence is read back from its base64url text |
| Base64Url.TextIsTheSextets | apps/api/src/jwt.ts:126-129 | one letter for each six bits, that of the URL alphabet, and no padding |
| Base64Url.GroupIsOneNumber | apps/api/src/jwt.ts:126-129 | three bytes and their four sextets are one number |
| Base64Url.UrlAlphabet | apps/api/src/jwt.ts:127-129 | the text has only letters, digits, `-` and `_`: no dot |
| Jwt.SignedTokenVerifies | apps/api/src/jwt.ts:81-141 | a signed token verifies to its claims if and only if a secret is set and exp, nbf, iss and aud allow it |
| Jwt.AcceptedExactly | apps/api/src/jwt.ts:81-124 | which texts are accepted, and with which claims: segments, alg, typ, MAC, exp, nbf, iss and aud |
| Jwt.AcceptedIsSigned | apps/api/src/jwt.ts:81-124 | whatever is accepted is HS256, carries the MAC of its own first two segments, and its claims are good |
| Jwt.AlteredPayloadNeedsTheMac | apps/api/src/jwt.ts:98-106 | another payload under the same signature is accepted only if its MAC is the same |
| OpenSlots.ComputeOpenSlots | apps/api/src/cal-v2-pilot.service.ts:87-119 | exactly the grid starts whose slot fits the range and whose buffered window meets no busy interval, in order |
| OpenSlots.OpenExactly | apps/api/src/cal-v2-pilot.service.ts:103-112 | a slot is open if and only if it ends within the range and every busy interval ends `before` minutes before it or begins `after` minutes after it |
| OpenSlots.MoreBusyFewerOpen | apps/api/src/cal-v2-pilot.service.ts:107-112 | adding busy time only closes slots |
| OpenSlots.CoalescingChangesNothing | apps/api/src/cal-v2-pilot.service.ts:100-112 | coalescing a sorted busy list opens and closes nothing |
| OpenSlots.AnyAvailable | apps/api/src/cal-v2-pilot.service.ts:396-403 | the sorted union over the calendars read |
| OpenSlots.AllAvailable | apps/api/src/cal-v2-pilot.service.ts:404-412 | the sorted intersection over them |
| OpenSlots.Availability | apps/api/src/cal-v2-pilot.service.ts:375-420 | the mode combines the calendars that could be read, says when some could not, and fails when none could |

## Left out

Assumed of what is not modelled:

- The provider notifies a guest only when the guest is added with notifications on.
- Leases hold: a row is worked on by one worker at a time. Rows are claimed by the in-order rule of `claimDueOutbox`.
- No row of a booking is being worked on at the moment another booking takes it over, and no delete of it is queued (deletes are queued once a booking is off).
- Clocks do not go backwards, a timer does not fire before it is due, and arithmetic is exact. Limits are positive where the configuration demands it (requests per second, capacity, refill, slot lengths).
- Refs contain no NUL and calendar ids no U+0001, so a connection's key names it; the provider's answer for a window is the set of its calendar's events that touch it (`CachedBusyProvider.ListsWhatTheProviderLists`, `BusyReads.ListsWhatTouchesTheRange`).
- Node's base64 decoder skips what is not in its alphabet; `JSON.parse` undoes `JSON.stringify` on claims; `localeCompare` is a consistent ordering that may tie; ISO instants sort as their times do.

Not modelled:

- InvitationResults.NobodyIsLeftUntold: is about changes with a write that landed, so a create that skips the host (`DeadClaimSkipsTheHost`) is not among them; and says nothing of a reinvite that failed for good, which stays in the outbox as failed; the row's retry budget and horizon are left open, so any failure may be the last.
- WriteOut.OneEventAndOneRoom: jobs of one booking run one after another; overlapping ones are in `WriteOverlap`, where one room needs a condition. The list of destinations is fixed; stored rows without a destination, rows removed by a delete and the text of a moved event are not in the model.
- WriteOverlap.OneRoomUnlessCrossed: is one way; a create that has another link in hand but no host left to write does no harm.
- IcsSequence.HighestSequenceIsCurrent: needs that the last change to commit is counted and its email sent; a first confirmation and a declined request carry no change number. Booking rows removed by hand are not in the model.
- OpenSlots.ComputeOpenSlots: is about the busy list it is given; the read behind it does not reach past the range for the buffers.
- Series jobs and the series extender: their date expansion is in other packages.
- Which email is skipped or put off, and for how long (the conferencing-link wait in `deliver`): the model lets any attempt be refused, fail or be put off.
- Templates, locales, reminders, follow-ups and member invitations: data shaping.
- `drainOnce`, lease renewal, backoff delays and log lines of the worker.
- HTTP, controllers, guards, permissions, OpenAPI, CRM, analytics and the web app.
- HMAC, hashing and encryption themselves.
