# Pigeonpost, modelled and proved

Dafny models of the parts of Pigeonpost whose behaviour is hardest to see from one function at a time,
with proofs of what they keep: the group-encryption client, the inbox page's optimistic state, account
erasure, meeting-notes capture, and the readers, grammar and arithmetic beside them.

The project is plain Dafny 4.11; `dfyconfig.toml` names its files.

## What is modelled

**Groups** (`GroupLog`, `GroupProtocol`, `GroupRuns`, `GroupClient`, `GroupPending`, `GroupHistory`,
`Devices`).
The postbox is a sequencer: an append-only log that takes a commit only at the current epoch and
revision and a message only at the current epoch (section 14, "Sequencing of State Changes", of RFC
9420). The MLS library is an abstract device with an epoch, a pending commit and a record of what it
was handed; it keeps one pending commit and builds no second beside it. A step is the page code
between two awaits, something another party does, or a crash that reloads the last saved record.
`GroupProtocol.Safe` writes down the hypotheses, each as a condition on the state: a pending commit
is dropped only if the postbox neither took it nor still may (an error answer means "not accepted",
and the read after acceptance succeeds), an accepted commit is merged only after the messages before
it were read, and a welcome is joined from only if none of the device's own commits follow it. The
central theorem says that the invariant survives a step exactly when the step is safe. `GroupClient`
is the client itself, loops, retries and all; each method's contract says its state is reached by a
safe run, with requests of a page that died still travelling.

**Inbox** (`InboxProtocol`, `InboxInvariants`, `InboxRuns`, `InboxClient`). One cached list is replaced
whole by listings that arrive late and out of order; over it lie unconfirmed sends, local read marks,
deletions and mailbox switches, any of whose answers can be lost. The postbox is assumed to treat a
repeated reference as the same message, and references and message ids to be fresh; the read-mark
theorem also assumes that snapshots are taken in request order, and its partner shows what happens
otherwise.

**Erasure** (`CalendarErasure`, `AccountErasure`). A transaction over every table that knows a person,
and a blob store no transaction covers; a failed attempt rolls the database back and leaves removed
files removed. Nothing else writes between attempts (services are stopped).

**Notes capture** (`CaptureProtocol`, `CaptureInvariants`, `CaptureRuns`, `CaptureQueue`,
`CaptureOverrun`, `CaptureRetries`, `CaptureDuty`, `CaptureClient`). Captures start and stop as views of a meeting
arrive; key derivation, timers, recorders, encryption, the upload loop and its waits are continuations
that may finish in any order and after the capture has ended.

**Readers, grammar, arithmetic** (`Text`, `EventStream`, `Csv`, `Vcard`, `VcardReader`,
`VcardRoundTrip`, `Handle`, `HandleGrammar`, `Crop`). The event-stream reader against a reader of the
whole text (the subset of section 9.2 of the WHATWG HTML standard with "\n\n" separators) and against a
writer; CSV against section 2 of RFC 4180; vCards against sections 3.2 and 3.4 of RFC 6350; the handle
grammar; the crop square over the reals with its rounding.

## What turned out otherwise

Each of these comes with an input or a run that shows it, and with the exact condition.

- A commit that is discarded although the postbox took it is later skipped in the log, and the next
  message is a gap (`GroupProtocol.DiscardKeeps`, `GroupRuns.LostAnswerRun`). A rejoin from a welcome
  older than one of the device's own commits does the same (`GroupProtocol.JoinKeeps`,
  `GroupRuns.OldWelcomeRun`).
- `commitLocked` leaves nothing pending, exactly unless it found a commit pending and read none: a page
  that dies between saving its commit and the postbox taking it leaves one behind, the library builds no
  second beside it, and an activation, which never reads, stays stuck on it
  (`GroupClient.Client.CommitLocked`, `GroupPending.StuckUntilFreed`, `GroupPending.StuckRun`).
- `commitLocked` gives up only after six competing changes, one per attempt. An activation never
  catches up, so it can also give up because the group moved on without it, and once behind it never
  succeeds (`GroupClient.Client.CommitLocked`, `GroupPending.BehindRun`).
- A message's own echo is matched by client id alone. If another sender used the same id, the history
  can leave its order (`GroupHistory.ConfirmKeepsExactlyWhenItFits`,
  `GroupHistory.SharedClientIdBreaksOrder`).
- After a send that left no copy, `Pending.reconcile(new Set())` drops nothing, although the comment
  beside it expects the row to go; it goes exactly after a retry (`InboxRuns.UnkeptGoesExactlyOnRetry`,
  `InboxRuns.UnkeptRun`).
- A send without a reference can be stored twice (`InboxRuns.StoredAgainExactlyWithoutRef`,
  `InboxRuns.StoredTwiceRun`).
- Calendar erasure can leave another attendee's filing in the erased person's calendar, and deliveries
  other organizers queued for the person (`CalendarErasure.FilingKeptExactlyWhen`,
  `CalendarErasure.FilingLost`, `CalendarErasure.DeliveriesToThemLeftExactlyWhen`,
  `CalendarErasure.DeliveryLeft`).
- What is captured is what the view calls for, except while the key of a new view is being verified,
  after a decline until the next view, and after the key could not be made
  (`CaptureDuty.InStepExactlyUnless`); and a new token under the same version does not reach the running
  capture (`CaptureDuty.GrantTakenExactlyUnless`, `CaptureDuty.OldTokenRun`).
- When an upload is answered after its chunk was pushed out of the backlog, the chunk taken off the
  queue is another one, which is then never uploaded (`CaptureQueue.AcceptedDropsItsOwnExactlyWhen`,
  `CaptureOverrun.OverrunHappens`).
- A table whose first field begins with a bare byte order mark loses it
  (`Csv.TableRoundTrip`, `Csv.BareMarkIsLost`).
- The longest accepted handles are one character too long for their own grammar
  (`Handle.IdempotentExactlyWhen`, `Handle.LongestIsNotIdempotent`).
- Device keys join mailbox and device id with a bar, so devices whose mailbox or id contains one can be
  confused (`Devices.SameDevicesExactlyWhen`, `Devices.ClashExactlyWhen`, `Devices.BarsConfuse`).

## Model

| member | source | states |
|---|---|---|
| `GroupLog.DeliveriesMeaning` | site-inbox/groups-core.js:380-391 | the expected deliveries of a log range are exactly the other devices' messages in it that were not deleted, ascending, each with the epoch it was encrypted in |
| `GroupProtocol.StepKeepsExactlyWhenSafe` | site-inbox/groups-core.js:368-541 | from any state where memory and saved record hold exactly the log up to their cursors, a step leads to such a state if and only if it is safe |
| `GroupProtocol.ProcessNextKeeps` | site-inbox/groups-core.js:380-391 | processing the next entry and moving the cursor to it keeps the record equal to the log prefix |
| `GroupProtocol.ConfirmKeeps` | site-inbox/groups-core.js:520-524 | merging an accepted commit keeps the invariant exactly when no message sequenced before it is still unread |
| `GroupProtocol.DiscardKeeps` | site-inbox/groups-core.js:530-532 | dropping the pending commit keeps it exactly when the postbox neither took that commit nor still may |
| `GroupProtocol.JoinKeeps` | site-inbox/groups-core.js:311-337 | joining from a welcome keeps it exactly when none of the device's own commits follow the welcome and none can still be accepted |
| `GroupProtocol.CreateKeeps` | site-inbox/groups-core.js:598-605 | creating the group keeps it exactly when no earlier request can still be accepted |
| `GroupRuns.SafeRunKeepsInv` | site-inbox/groups-core.js:368-541 | every safe run keeps the invariant |
| `GroupRuns.FirstUnsafeStepLosesInv` | site-inbox/groups-core.js:506-541 | the first unsafe step of a run is where the invariant is lost, so the hypotheses cannot be weakened |
| `GroupRuns.EpochOfEveryRun` | site-inbox/groups-core.js:368-435 | after every safe run the device's epoch, in memory and as saved, is its joining epoch plus the number of commits after its join point up to its cursor |
| `GroupRuns.EpochOnlyGrows` | site-inbox/groups-core.js:506-541 | the postbox's epoch never goes back in any run |
| `GroupRuns.StaleCommitNeverAccepted` | site-inbox/groups-core.js:506-541 | a commit built behind the group's epoch is not accepted after any run, however often it is posted |
| `GroupRuns.ExactlyOnceInEveryRun` | site-inbox/groups-core.js:380-391 | after every safe run the device was handed each other device's message between join point and cursor exactly once, in order, at its own epoch, except ones deleted before they were read |
| `GroupRuns.GapUnreachable` | site-inbox/groups-core.js:411-418 | in a safe run a device that holds the group never meets the "gap" outcome or an exception |
| `GroupRuns.CatchUpReadsEverything` | site-inbox/groups-core.js:368-395 | reading on from any sound record ends at the end of the log in the postbox's epoch, or at the first commit that removes the device |
| `GroupRuns.ReloadReachesTheSameState` | site-inbox/groups-core.js:186-195 | at any point of a safe run, reloading the saved record and reading on ends in the state that reading on without the crash does |
| `GroupRuns.AcceptedCommitSurvivesCrash` | site-inbox/groups-core.js:510-526 | a commit accepted just before a crash is merged on reload through the saved pending commit, ending in the postbox's epoch with nothing pending |
| `GroupRuns.DroppedCommitIsSkipped` | site-inbox/groups-core.js:530-531 | discarding a commit the log holds makes the device skip it and stand one epoch behind, so that the message after it is a gap |
| `GroupRuns.OldWelcomeSkipsOwnCommit` | site-inbox/groups-core.js:315-324 | joining from a welcome older than an own commit skips that commit |
| `GroupRuns.LostAnswerRun` | site-inbox/groups-core.js:512-531 | a run from the start that loses the invariant through an answer that was lost |
| `GroupRuns.OldWelcomeRun` | site-inbox/groups-core.js:311-337 | a run from the start that loses it through an old welcome |
| `GroupClient.CrashAnywhere` | site-inbox/groups-core.js:257-270 | a crash after any part of a safe run leaves a sound record to reload |
| `GroupClient.TravellingLandsFirst` | site-inbox/groups-core.js:512-519 | a request of a page that died, if it is accepted later, is the first commit to land, so at most one of them ever is |
| `GroupClient.Client.Persist` | site-inbox/groups-core.js:229-232 | memory and saved record agree, by a safe step |
| `GroupClient.Client.ProcessEntry` | site-inbox/groups-core.js:404-475 | the imperative entry processing changes the record and reports as the specification of one entry says |
| `GroupClient.Client.TakeEntry` | site-inbox/groups-core.js:382-391 | one turn of the reading loop is a safe step: one entry further, saved, no gap for a holder, and the pending commit goes exactly when the entry is a commit |
| `GroupClient.Client.ProcessPage` | site-inbox/groups-core.js:379-392 | a page is read in sequence up to its end or `upTo`, every entry once, by a safe run |
| `GroupClient.Client.ResyncLocked` | site-inbox/groups-core.js:484-492 | after a 410 the group is forgotten, soundly, with the cursor kept |
| `GroupClient.Client.SyncLocked` | site-inbox/groups-core.js:368-395 | a completed read reached `upTo` or the end of the log as it was at the start, by a safe run that adds nothing of ours to the log |
| `GroupClient.Client.BuildCommit` | site-inbox/groups-core.js:507-510 | a commit is pending at the device's epoch and nothing of ours lies past the cursor |
| `GroupClient.Client.PostCommit` | site-inbox/groups-core.js:512-519 | an accepted commit is the only new entry of ours, at the epoch in force, and never one of a device that was behind; a refused one leaves none; a conflict means the revision or epoch moved |
| `GroupClient.Client.DropCommit` | site-inbox/groups-core.js:530-532 | after a refusal the pending commit is dropped and saved, soundly |
| `GroupClient.Client.MergeAccepted` | site-inbox/groups-core.js:520-529 | after acceptance the device ends merged at the commit's place and saved; an activation, which does not read, is sound exactly when nothing was unread |
| `GroupClient.Client.Prepare` | site-inbox/groups-core.js:504-510 | an attempt starts caught up with the log as its last page saw it, with a saved pending commit and a revision read after that; it starts only if nothing was pending or a commit has been read since, and otherwise leaves pending exactly what was |
| `GroupClient.Client.Attempt` | site-inbox/groups-core.js:504-539 | one attempt adds at most one new entry; losing it means a competing change landed after its catch-up last looked (or, for an activation, that the device is behind) |
| `GroupClient.Client.CommitLocked` | site-inbox/groups-core.js:502-541 | at most one new entry is appended, at the epoch in force, beside at most one request of an earlier page; a commit is left pending exactly when one was pending at the start and no commit was read, which for an activation is always; giving up means six competing changes landed, or an activation that is behind, and one that is behind never succeeds |
| `GroupClient.Client.Activate` | site-inbox/groups-core.js:598-622 | creating and activating a group is sound and adds at most one new entry; it leaves a commit pending exactly when it found one, and then does nothing |
| `GroupClient.Client.ProcessWelcome` | site-inbox/groups-core.js:315-331 | a welcome that opens puts the device at the welcome's epoch and position; the result is sound exactly when no own commit follows it and none under way can |
| `GroupClient.Client.Reload` | site-inbox/groups-core.js:257-270 | after the page dies, what is left is the saved record, and it is sound |
| `GroupClient.Client.PostMessage` | site-inbox/groups-core.js:648-659 | a taken message is one entry of ours at the epoch in force at its place; a refused one leaves none |
| `GroupClient.Client.SendLocked` | site-inbox/groups-core.js:636-688 | a send appends at most one message under its id, at the epoch in force at its sequence number, and leaves a commit pending exactly when one was pending at the start and no commit was read |
| `GroupPending.StuckStep` | crates/pigeonpost-groupcrypto/src/device.rs:668-676 | a device reloaded with a pending commit keeps it through a step exactly unless the step reads a commit, joins anew or forgets the group |
| `GroupPending.StuckUntilFreed` | site-inbox/groups-core.js:502-511 | so in every run, however often it is reloaded, such a device builds no commit until one of these happens |
| `GroupPending.StuckRun` | site-inbox/groups-core.js:507-512 | a run from the start that gets there: the page dies after saving its commit, before the request went out or while it travels |
| `GroupPending.BehindRun` | site-inbox/groups-core.js:503-511 | a run from the start in which a device is behind the group while it activates it |
| `GroupHistory.SortIsStableSort` | site-inbox/groups-core.js:250-252 | the history's sort is sorted, a permutation, and keeps the order of rows at the same position |
| `GroupHistory.RememberKeepsOk` | site-inbox/groups-core.js:244-253 | remembering keeps the rows sorted, one per position and kind, at most 1000 |
| `GroupHistory.RememberKeepsNewest` | site-inbox/groups-core.js:244-253 | what is left out of the rows is older than everything in them |
| `GroupHistory.HistoryOfEveryRun` | site-inbox/groups-core.js:404-475 | every sequence of remember, echo, edit, prune and drop keeps the history sorted, unique and bounded, given one seq per client message id |
| `GroupHistory.NewestInEveryRun` | site-inbox/groups-core.js:244-253 | over every sequence of remember, echo, edit, prune, drop and forget, the rows are the newest of all that was remembered since rows last went by prune, drop or forget, together with what was left then |
| `GroupHistory.NothingGoesUnaccounted` | site-inbox/groups-core.js:244-253 | over every such sequence from an empty history, a key remembered at any step is in the rows at the end, or went at a later step: it expired, was dropped or forgotten, or was cut while a thousand rows at or after its position were kept |
| `GroupHistory.ConfirmKeepsExactlyWhenItFits` | site-inbox/groups-core.js:441-446 | confirming an echo keeps the history in order exactly when the new position fits between the neighbours of the row it matched |
| `GroupHistory.SharedClientIdBreaksOrder` | site-inbox/groups-core.js:441-446 | a history in order that an echo under another sender's client id puts out of order |
| `GroupHistory.History.RememberRow` | site-inbox/groups-core.js:244-253 | the in-place update is the specified one |
| `GroupHistory.History.ConfirmOwn` | site-inbox/groups-core.js:441-446 | the search finds the first message row under the client id and moves it alone; the order is kept exactly when the new position fits there |
| `GroupHistory.History.MarkReplaced` | site-inbox/groups-core.js:468-471 | the search finds the edited message and marks it; no row moves or goes |
| `GroupHistory.History.Show` | site-inbox/groups-core.js:404-475 | each kind of entry changes the history by its specified changes and no others |
| `Devices.SortedIsUnique` | site-inbox/groups-core.js:477-482 | two sorted lists with the same keys are equal |
| `Devices.SameKeysExactlyWhen` | site-inbox/groups-core.js:477-482 | sorting two key lists gives the same list exactly when they hold the same keys as often |
| `Devices.SameDevicesExactlyWhen` | site-inbox/groups-core.js:477-482 | over any set of devices, every declaration is accepted exactly when it lists the verified devices, each as often, in any order, if and only if no two of the devices have one key |
| `Devices.ClashExactlyWhen` | site-inbox/groups-core.js:479-480 | two devices have one key exactly when they are the same, or the mailbox of one goes on past a bar as the id of the other does up to one |
| `Devices.PlainIdsDiffer` | site-inbox/groups-core.js:477-482 | devices whose ids hold no bar are never confused |
| `Devices.BarsConfuse` | site-inbox/groups-core.js:479-480 | two different devices that the comparison takes for one |
| `InboxInvariants.SendsKept` | site-inbox/app.js:3225-3275 | every step keeps what is known of sends: origins, references, requests, attempts under way and copies |
| `InboxInvariants.ListingsKept` | site-inbox/app.js:3394-3460 | every step keeps what is known of listings under way and adopted |
| `InboxInvariants.GoneKept` | site-inbox/app.js:1986-2048 | every step keeps confirmed deletions out of the list and of every listing that can still be adopted |
| `InboxInvariants.MarksKept` | site-inbox/app.js:3089-3119 | under snapshots in request order, every step keeps each mark shown and either remembered or agreed by all adoptable listings |
| `InboxInvariants.ShowAllMeaning` | site-inbox/app.js:3443-3454 | the adoption loop shows exactly the listing with acknowledged messages read, and forgets a correction exactly when the server agrees |
| `InboxRuns.StepKeepsSound` | site-inbox/app.js:3144-3460 | every step keeps all of it |
| `InboxRuns.RunKeepsSound` | site-inbox/app.js:3144-3460 | and so does every run |
| `InboxRuns.SendsInEveryRun` | site-inbox/app.js:3218-3257 | in every run a record has at most one attempt under way, exactly while it says "sending"; every attempt carries the record's request; a send with a reference is stored at most once |
| `InboxRuns.RequestNeverChanges` | site-inbox/app.js:3219-3231 | a record's request is the same after any run |
| `InboxRuns.StoredAgainExactlyWithoutRef` | site-inbox/app.js:3175-3205 | a send taken again stores a second message exactly when it has no reference |
| `InboxRuns.StoredTwiceRun` | site-inbox/app.js:3175-3205 | a run from the start that stores a send twice: its answer is lost and it is retried without a reference |
| `InboxRuns.DroppedOnlyWhenAnswered` | site-inbox/app.js:1041-1053 | adopting a listing drops a row only if the listing holds the copy its send stored |
| `InboxRuns.NoRowBesideItsCopy` | site-inbox/app.js:1041-1053 | after adopting, no settled row with a reference stands beside its own copy |
| `InboxRuns.UnkeptGoesExactlyOnRetry` | site-inbox/app.js:3215-3262 | the answer to a listed send that left no copy takes its row away exactly when the attempt was a retry |
| `InboxRuns.UnkeptRun` | site-inbox/app.js:3202-3218 | a run from the start that leaves such a row: one send, taken without a copy and answered |
| `InboxRuns.UnkeptStaysExactlyWhen` | site-inbox/app.js:3208-3218 | a step takes such a row away exactly when it is a sign-out or a confirmed deletion of its thread |
| `InboxRuns.UnkeptSendStays` | site-inbox/app.js:3208-3210 | the row of a send that left no copy stays through every listing and every other step of any run, up to a sign-out or a confirmed deletion of its thread |
| `InboxRuns.AdoptionsInEveryRun` | site-inbox/app.js:3427-3434 | adopted request numbers ascend, and no listing is adopted outside the opening of the mailbox that asked for it, also not after switching back |
| `InboxRuns.NothingResurrected` | site-inbox/app.js:1986-2036 | after a confirmed deletion no listing, under way or later, brings any of its messages back |
| `InboxRuns.MarksNeverFlicker` | site-inbox/app.js:3089-3119 | from the moment a message is marked, as long as its ack does not fail and the mailbox stays, it is shown read after every step |
| `InboxRuns.FlickersExactlyWhenInverted` | site-inbox/app.js:3443-3454 | two listings received in order leave an acknowledged message read exactly unless the earlier one was taken after the ack and the later one before it |
| `InboxRuns.OutOfOrderFlickers` | site-inbox/app.js:3443-3454 | a run from the start in which snapshots out of order bring an unread mark back |
| `InboxClient.Inbox.Reconcile` | site-inbox/app.js:1048-1053 | exactly the answered rows go, in place |
| `InboxClient.ReconcilingNothingDropsNothing` | site-inbox/app.js:3215-3217 | reconciling against an empty set keeps every row |
| `InboxClient.Inbox.Adopt` | site-inbox/app.js:3443-3460 | the loop over the listing and the reconciliation do what one adoption step does |
| `InboxClient.Inbox.AskForListing` | site-inbox/app.js:3403-3406 | a request takes a number above everything under way, new and adoptable in every sound state |
| `InboxClient.Inbox.ReceiveListing` | site-inbox/app.js:3427-3433 | a listing is adopted exactly when it is of this opening and no later request was adopted, and then as one step does |
| `InboxClient.Inbox.AckVisible` | site-inbox/app.js:3089-3109 | exactly the unread incoming messages on display are marked, and remembered |
| `InboxClient.Inbox.AckRefused` | site-inbox/app.js:3110-3117 | a failed ack takes its own mark back, in the opening and list it was made in, touches no other message's, and keeps every sound state sound |
| `InboxClient.Inbox.Deleted` | site-inbox/app.js:1986-2036 | a confirmed deletion filters the list and rows and outdates every listing asked for before |
| `InboxClient.Inbox.Deliver` | site-inbox/app.js:3225-3243 | an outcome settles its record under the same request; its row goes exactly when a retry left no copy and comes exactly when a hidden send is to be shown; every other row and record stays, and every sound state stays sound |
| `InboxClient.Inbox.SwitchIdentity` | site-inbox/app.js:3289-3304 | a switch opens the mailbox anew: empty list, no marks, pending sends kept, and nothing asked for before can be adopted |
| `CalendarErasure.ErasureKeepsIntegrity` | deploy/account-deletions.py:49-76 | if every calendar row referred to an existing parent before, all survivors do after, and no surviving event is organized by, created by or in a calendar of the person |
| `CalendarErasure.ErasureRemovesNoMore` | deploy/account-deletions.py:49-76 | the result contains every sub-database that has integrity and no trace of the person, so nothing went that could stay |
| `CalendarErasure.FilingKeptExactlyWhen` | deploy/account-deletions.py:49-76 | attendees' filing calendars survive exactly when no one else filed another's event in the person's calendar |
| `CalendarErasure.FilingLost` | deploy/account-deletions.py:49-76 | a small database in which another's filing loses its calendar |
| `CalendarErasure.DeliveriesToThemLeftExactlyWhen` | deploy/account-deletions.py:70-72 | a queued delivery to the person is left exactly when one was queued outside the person's events and account |
| `CalendarErasure.DeliveryLeft` | deploy/account-deletions.py:70-72 | a small database in which a queued invitation to the person stays |
| `CalendarErasure.EventCanGoExactlyWhen` | deploy/account-deletions.py:63-72 | an event's rows can go without leaving a reference to nothing exactly when its attendees have gone |
| `CalendarErasure.CalendarsCanGoExactlyWhen` | deploy/account-deletions.py:74-76 | an address's calendars can go exactly when no event is left in them |
| `CalendarErasure.CalendarStore.DeleteAttendee` | deploy/account-deletions.py:58-62 | all rows keyed by the attendee go and no others, and what fitted together before does after |
| `CalendarErasure.CalendarStore.DeleteEvent` | deploy/account-deletions.py:63-72 | the loop over occurrences removes the event's rows in every table; what fitted together still does exactly when nobody attended it any more |
| `CalendarErasure.CalendarStore.DeleteOwned` | deploy/account-deletions.py:74-76 | an address's reminders and calendars go; what fitted together still does exactly when its calendars held no event any more |
| `CalendarErasure.CalendarStore.Erase` | deploy/account-deletions.py:46-76 | the loops over attendees, events and addresses end in the erased tables, whatever order they visit |
| `AccountErasure.ErasureKeepsFiles` | deploy/account-deletions.py:210-234 | after a finished erasure every remaining attachment and picture has its file, and a file of either kind is gone exactly if the person used it and no remaining row does |
| `AccountErasure.NothingOfTheirsStays` | deploy/account-deletions.py:112-209 | nothing of the account is left in any table (abuse reports apart, where they are kept), the calendar still fits together, and kept rows, group posts and other people's requests are all there |
| `AccountErasure.OnlyTheirsGoes` | deploy/account-deletions.py:112-209 | nothing else goes: any rows of any table that hold no trace of the account, with a calendar that fits together, are all still there |
| `AccountErasure.RetryingEndsTheSame` | deploy/account-deletions.py:211-240 | any number of failed attempts and then a success end as the success alone would |
| `AccountErasure.OnlyTheTimeDiffers` | deploy/account-deletions.py:203-235 | two successes at different times differ only in the two timestamps |
| `AccountErasure.AttemptDanglesOwn` | deploy/account-deletions.py:211-240 | one attempt, failed or not, makes only the erased account's own attachments and pictures lose a file |
| `AccountErasure.OnlyFailedAccountsDangle` | deploy/account-deletions.py:211-240 | over every sequence of attempts an attachment or picture without its file belongs to an account some attempt failed for |
| `AccountErasure.EmptyMailboxes` | deploy/account-deletions.py:112-155 | the loop over addresses removes exactly their rows and collects exactly their digests |
| `AccountErasure.EraseRows` | deploy/account-deletions.py:112-212 | the statements up to the files give the erased database and exactly the digests no remaining row uses |
| `AccountErasure.PostboxStore.Unlink` | deploy/account-deletions.py:216-234 | files go one by one; a failure leaves only files of the given lists removed, pictures only after all blobs |
| `AccountErasure.PostboxStore.Erase` | deploy/account-deletions.py:79-240 | the whole operation refuses unchanged, succeeds whole, or fails with the database as it was |
| `CaptureInvariants.StepKeeps` | site-inbox/calls-summary.js:362-484 | every step keeps the invariant: queues, recorders in succession, chunk ownership, numbering, one upload loop, verified sessions |
| `CaptureRuns.RunKeeps` | site-inbox/calls-summary.js:362-484 | and so does every run |
| `CaptureRuns.EveryUploadIsOwn` | site-inbox/calls-summary.js:436-484 | in every run each upload carries the token and meeting of the capture that recorded its audio, the audio was not all muted, and the capture's service key had been verified |
| `CaptureRuns.NoNumberReused` | site-inbox/calls-summary.js:439-440 | within a meeting two uploads of any run have the same number exactly when they are the same recording, across capture restarts |
| `CaptureRuns.StoppedIsSilent` | site-inbox/calls-summary.js:362-484 | once a capture is not the running one, no continuation it left behind starts another upload for it, in any run |
| `CaptureRuns.NothingAfterDecline` | site-inbox/calls-summary.js:335-339 | declining or leaving ends the running capture's uploads at once and for good |
| `CaptureRuns.OneUploadOneRecorder` | site-inbox/calls-summary.js:400-484 | in every run a capture has at most one upload under way and at most one recorder |
| `CaptureDuty.BringsInStep` | site-inbox/calls-summary.js:181-202 | from any state, a view with a known key, a verdict on a key and leaving each end with a capture running exactly when the view, the consent and the verified key call for one, and then for that meeting and version |
| `CaptureDuty.InStepExactlyUnless` | site-inbox/calls-summary.js:335-388 | a step keeps that exactly unless it is a view whose key has yet to be verified while a capture runs, a decline while one runs, or the running one's key failing |
| `CaptureDuty.InStepFromTheStart` | site-inbox/calls-summary.js:362-388 | so in every run without such a step what runs is what is wanted |
| `CaptureDuty.GrantTakenExactlyUnless` | site-inbox/calls-summary.js:368-374 | what runs has the view's token and service key exactly unless a capture of that meeting and version was running with others |
| `CaptureDuty.OldTokenRun` | site-inbox/calls-summary.js:368-374 | a run from the start in which a new token does not reach the running capture |
| `CaptureQueue.RunPlaced` | site-inbox/calls-summary.js:436-484 | in every run a queued chunk has not been posted unless it is the one the loop is at, and a chunk being encrypted is nowhere else |
| `CaptureQueue.AcceptedDropsItsOwnExactlyWhen` | site-inbox/calls-summary.js:463-471 | in every run the chunk an accepted upload takes off the queue is the uploaded one exactly when at most five were queued behind it since; otherwise it was never posted |
| `CaptureQueue.OverrunLosesAChunk` | site-inbox/calls-summary.js:463-471 | a chunk dropped that way is not uploaded by anything that follows |
| `CaptureOverrun.OverrunHappens` | site-inbox/calls-summary.js:453-471 | a run from the start that gets there |
| `CaptureRetries.PostedAtMostFourTimes` | site-inbox/calls-summary.js:463-477 | in every run a chunk is posted at most four times |
| `CaptureRetries.StepCounts` | site-inbox/calls-summary.js:463-477 | every step keeps the count: a chunk under way was posted once more than it was answered busy, a waiting one as often |
| `CaptureClient.Notes.StopCapture` | site-inbox/calls-summary.js:389-398 | after stopping, the capture holds no queue and no key and none of its recorders goes on; the invariant is kept |
| `CaptureClient.Notes.SyncCapture` | site-inbox/calls-summary.js:368-374 | afterwards what runs is what the view calls for, and a capture that gave way is over; the invariant is kept |
| `CaptureClient.Notes.TakeView` | site-inbox/calls-summary.js:182-202 | a view with a known key brings what runs in step; any other is verified first, with nothing wanted and the running capture left alone; the invariant is kept |
| `CaptureClient.Notes.Record` | site-inbox/calls-summary.js:400-425 | exactly a recorder that starts goes on recording, as the capture's latest; on a capture with nothing else under way the invariant is kept |
| `CaptureClient.Notes.RecorderStopped` | site-inbox/calls-summary.js:415-421 | a finished recording gets a number exactly when the running capture heard something that was not all muted; the invariant is kept |
| `CaptureClient.Notes.Enqueue` | site-inbox/calls-summary.js:436-440 | a chunk takes its meeting's next number, new in every sound state, and no number given before changes |
| `CaptureClient.Notes.Enter` | site-inbox/calls-summary.js:454-455 | the trimming loop keeps the newest six |
| `CaptureClient.Notes.TakeCiphertext` | site-inbox/calls-summary.js:453-456 | an encrypted chunk enters the queue exactly of the running capture, whose newest six are kept; at most one upload starts, its own; the invariant is kept |
| `CaptureClient.Notes.UploadNext` | site-inbox/calls-summary.js:463-469 | the loop posts the head of the running capture's queue, one of its own recordings, or ends; the invariant is kept |
| `CaptureClient.Notes.TakeAnswer` | site-inbox/calls-summary.js:470-480 | an answer after the capture ended changes nothing it holds; otherwise an accepted chunk leaves the queue, a refusal empties it, a busy postbox leaves it alone for three tries; at most one upload starts, and the invariant is kept |
| `EventStream.ReadFrameLines` | site-inbox/app.js:3714-3728 | the loop over a frame's lines gives the frame's event |
| `EventStream.TakeFrames` | site-inbox/app.js:3711-3729 | the inner loop takes every finished frame off the buffer and leaves the rest |
| `EventStream.ReadEventStream` | site-inbox/app.js:3702-3732 | for every way of cutting a text into chunks, the loop emits what the chunked reader does, which is what the line-by-line reader says of the whole text |
| `EventStream.DrainMore` | site-inbox/app.js:3710-3713 | draining in two goes is draining at once |
| `EventStream.FeedIsDrain` | site-inbox/app.js:3702-3732 | from a drained buffer, reading chunk by chunk gives the events and the rest of draining everything at once |
| `EventStream.DrainIsReadLines` | site-inbox/app.js:3711-3729 | frame by frame and line by line say the same, left-over newlines included |
| `EventStream.ChunkingDoesNotMatter` | site-inbox/app.js:3702-3732 | two cuttings of the same text give the chunked reader the same events and leave it the same rest |
| `EventStream.WrittenIsRead` | site-inbox/app.js:3700-3732 | whatever events a server writes, the chunked reader reads back, however their text is cut |
| `Csv.CsvRows` | site-inbox/contacts.js:141-160 | the character loop gives the rows of the specified scan |
| `Csv.ReadsAllLines` | site-inbox/contacts.js:141-160 | a table written in any style of section 2 of RFC 4180 scans to its rows that are not blank |
| `Csv.MarkedRoundTrip` | site-inbox/contacts.js:142-143 | behind a byte order mark every table reads back as its rows that are not blank |
| `Csv.RoundTripExactlyWhen` | site-inbox/contacts.js:141-160 | without one, the non-blank rows read back exactly unless the first field of a row that counts begins with a bare mark |
| `Csv.TableRoundTrip` | site-inbox/contacts.js:141-160 | a table of non-blank rows reads back exactly when its first field does not begin with a bare mark |
| `Csv.BareMarkIsLost` | site-inbox/contacts.js:142-143 | a table of one field that does not read back |
| `Vcard.Unfold` | site-inbox/contacts.js:99-107 | the unfolding loop is the specified unfolding |
| `Vcard.UnfoldsExactlyWhen` | site-inbox/contacts.js:99-107 | any folding of logical lines unfolds to them exactly when no later line begins with a blank and none before the last is an open-ended quoted-printable one |
| `Vcard.SplitUnescaped` | site-inbox/contacts.js:85-95 | the splitting loop is the specified split |
| `Vcard.SplitIsLossless` | site-inbox/contacts.js:85-95 | joining the parts with the separator gives the value back, for every value and separator |
| `Vcard.UnescapeEscape` | site-inbox/contacts.js:80-82 | unescaping what section 3.4 of RFC 6350 escapes gives the text with line feeds as spaces |
| `Vcard.ComponentsRoundTrip` | site-inbox/contacts.js:80-95 | escape, join, split, unescape is the identity exactly on component lists without line feeds |
| `VcardReader.ParseVcard` | site-inbox/contacts.js:97-136 | the two loops give the cards of the specified reading |
| `VcardReader.PhysicalLines` | site-inbox/contacts.js:98 | lines written with any mixture of line ends are split back into themselves |
| `VcardRoundTrip.CardsRoundTrip` | site-inbox/contacts.js:97-136 | cards written out, folded anywhere, with any line ends, with or without a byte order mark, read back as themselves with tidied names and numbers |
| `VcardRoundTrip.StructuredNameIsSpoken` | site-inbox/contacts.js:127-129 | escaped components, any missing from the end, are read as the name in speaking order without gaps |
| `VcardRoundTrip.StructuredCard` | site-inbox/contacts.js:108-129 | a card without a formatted name takes the structured one |
| `VcardRoundTrip.NameSurvivesExactlyWhen` | site-inbox/contacts.js:120-126 | tidying leaves a name alone exactly when its white space is single spaces inside it |
| `VcardRoundTrip.CardSurvivesExactlyWhen` | site-inbox/contacts.js:119-133 | a card reads back unchanged exactly when its name is tidy and its numbers are trimmed and not empty |
| `HandleGrammar.SegmentExactlyWhen` | site-inbox/handle.js:57-83 | a segment passes its validator exactly when it is a local part, an at sign and two or more domain labels, or a word within its length |
| `HandleGrammar.AcceptedExactlyWhen` | site-inbox/handle.js:86-130 | a text is accepted exactly when, trimmed, it spells one address, or a namespace other than gh and one or two names, with or without the leading slash, in at most 320 ASCII characters |
| `Handle.CaseDoesNotMatter` | site-inbox/handle.js:57-130 | spellings that differ only in case get the same handle or the same refusal, for every input |
| `Handle.IdempotentExactlyWhen` | site-inbox/handle.js:86-130 | a canonical handle is its own canonical form exactly when it has at most 320 characters, and otherwise is refused as too long |
| `Handle.LongestIsNotIdempotent` | site-inbox/handle.js:86-130 | an accepted text whose handle is refused |
| `Handle.AcceptedParts` | site-inbox/handle.js:86-130 | an accepted handle is one to three non-empty parts, and a single one is an address |
| `Handle.CoveredExactlyWhen` | site-inbox/handle.js:142-169 | for canonical handles, a peer is covered by a handle's fleet wildcard exactly when it is a direct child of its own namespace, that namespace is the handle's, and it is not /k |
| `Handle.AgentsCoveredExactlyWhen` | site-inbox/handle.js:142-169 | outside /k, an agent directly under one person's namespace is covered by another handle's fleet wildcard exactly when the two namespaces are equal |
| `Handle.NeverBareProvider` | site-inbox/handle.js:134-156 | no canonical handle's fleet wildcard is a provider's bare namespace |
| `Crop.ClampCovers` | site-inbox/crop.js:15-19 | a clamped offset covers the view and is the nearest one that does, so it is unchanged exactly when it covered already |
| `Crop.CentredIsCentred` | site-inbox/crop.js:22-25 | centring needs no clamp and puts the picture's middle under the view's |
| `Crop.RezoomKeepsMiddleExactlyWhen` | site-inbox/crop.js:28-32 | zooming keeps the point under the middle exactly when the view stays covered around it |
| `Crop.ZoomingInKeepsMiddle` | site-inbox/crop.js:28-32 | zooming in from a covered view keeps the middle |
| `Crop.Played` | site-inbox/app.js:4869-4909 | after any sequence of drags and zooms from the centred start the view is covered and the zoom between 1 and 4 |
| `Crop.CropIsNear` | site-inbox/crop.js:35-43 | the crop is a square of whole pixels inside the picture, its side and place within half a pixel of what is visible, or one pixel where less than half is visible |
| `Crop.ScaledIsNear` | site-inbox/crop.js:46-53 | on the scaled-down picture the square stays inside, its side within half a pixel and its place within one, where at least half a pixel of it is left |

## Left out

- The pages' rendering, sheets, previews, focus and styling, in the inbox and the enterprise site.
- Cryptography: MLS internals, AES-GCM, ECDH, PBKDF2 and signatures are abstract answers.
- Sign-in, tokens, `fetch` and IndexedDB mechanics; saving a record is one atomic step.
- The postbox's own implementation (the Rust crates), which is not part of this model; it appears as the sequencer, the mailbox and the tables described above.
- Billing, pricing, rules, names and documentation pages.
- GroupClient.Client.ProcessEntry: commits are honest and verify; a commit the library rejects for another reason (a warning and a skip in the source) is not a step of the group model. Its history row is in GroupHistory.History.Show.
- GroupClient.Client.SyncLocked: the completeness clause stops at the source's own limit of a thousand pages of a hundred entries; epoch acknowledgements, key packages, jitter and waiting times are left out.
- GroupClient.Client.CommitLocked: an accepted commit whose catch-up read fails is discarded by the source; that result is reported as unsound and is where the invariant is lost.
- GroupClient.Client.Activate: a device that does not hold the group has to find the row not activated and no request of its own that can still be accepted; GroupProtocol.CreateKeeps is the exact condition.
- GroupClient.Client.SendLocked: a message request of a page that died is not still travelling (commit requests may be).
- GroupHistory.RememberKeepsOk: rows always have a sequence number; the branch of `remember` without one has no caller.
- InboxClient.Inbox.AckVisible: which messages are on display, and in which thread, is a parameter.
- Uploading files before a send, drafts, composing and the words of failure messages.
- AccountErasure.PostboxStore.Erase: tables deleted, renamed or kept in the same way are one map each; tables absent from older deployments and the test that a blob's path stays under its root are left out; a picture's `instr` search over its size list is membership.
- CaptureClient.Notes.TakeCiphertext: the envelope's contents, chunk lengths and their adaptation to size are left out; captures are named by their place in a list instead of by object identity.
- CaptureClient.Notes.TakeView: a view always carries a service key, and verifying it answers yes or no.
- EventStream.ReadFrameLines: ids are unbounded integers (the source keeps them as doubles); the streaming UTF-8 decoder comes before the model.
- VcardReader.ParseVcard: the quoted-printable decoder is a parameter, and upper-casing is that of ASCII.
- Handle.CaseDoesNotMatter: case is that of ASCII, the only text the grammar accepts.
- Crop.CropIsNear: over the reals; the source computes in doubles.
- Column guessing in `parseCsv`, the name validators, invitation texts and local aliases: each is a table of patterns tried in order, with no state and nothing to undo.
- The `site-enterprise` and `site-developers` pages.
