# Zenbot: models and proofs of its protocols

Zenbot is a chat bot. Most of its code is thin plumbing; the parts modelled here are the hand-written protocols that have to be right under interleavings, crashes and tight budgets. Each module follows one part of the program.

- **Mail delivery** (`MailText`, `MailStore`, `MailDelivery`, `MailWorker`). Two tables, and any number of workers that claim, send and finalise. Transactions commit, roll back, or lose the answer to their commit; workers crash and are cancelled anywhere.
- **Context projection** (`Wire`, `ContextBudget`, `ToolProtocol`, `TurnContext`, `ResultIndex`, `TurnProjection`, `ShownIndex`, `TurnTranscript`, `OfferedSegments`, `HistoryContext`, `RoomContext`, `InitialRequest`). What the model is sent: required messages, whole optional units chosen greedily under a byte budget, a reserved result index that is patched afterwards, and the transcript those units are cut from; and the first request of a turn, with its history and room.
- **Views of results** (`ObservationView`, `OmittedNames`, `ResultPreview`, `PreviewBounds`). What is shown of a tool result within a number of bytes, and exactly when it does not fit.
- **Host lifecycle and supervisor** (`HostLifecycle`, `HostSupervisor`). Request coalescing, supersession, dispatch leases and the wake channel; ownership of built hosts.
- **Agent runtime** (`KeyedLock`, `AgentRuntime`). Admission, queue, execution slots, one mutex per key, and the drainer of ambient requests.
- **Room snapshots** (`SnapshotWorkflow`, `SnapshotCache`). One workflow with its racing events, and the bounded index of outcomes.
- **Turn loop and paging** (`TurnRules`, `TurnEngine`, `RejectedCalls`, `ResultPaging`). The model/tool loop with its budgets and its course as a function of what it is answered, its bounded diagnostics, and the pager for retained results.
- **Moderation** (`SlidingWindow`, `MessageMonitor`, `JoinMonitor`). Pruned sliding windows, thresholds and the escalation ladder, against definitions over the whole history.
- **Replicas and memory** (`ReplicaOwnership`, `ConversationMemory`). Ownership of replicas under races, and summaries that cover each row exactly once.

## How it is modelled

A component whose methods update fields behind a mutex is a class with those fields. Each critical section is a method whose postcondition gives the whole new state as a function of the old one. The same functions are the steps of a state machine in which all threads, callbacks, failures and cancellations interleave; invariants are proved step by step and then for whole runs (`Reaches`). Loops over local data are methods proved against a specification function, and the properties are proved about that function.

Assumptions, all of them explicit in preconditions or parameters:

- attempt tokens, execution numbers, request ids and operation ids are fresh, and database transactions are serialised;
- a sender enters transport at most once per call, and reports "not started" only if it never did;
- the fingerprint of a single message determines its role, text, call id and calls (`ResultIndex.Separates`); nothing is assumed of the fingerprints of unit contents;
- the clock of the moderation monitors does not go back;
- the history of a turn is a valid transcript, as loaded memory always is (`InitialRequest.MemoryIsSound`);
- the executor answers a batch with one result per call, and row ids are positive and ascending;
- callbacks, tools, the provider, the summariser, trimming and case folding are parameters or nondeterministic events.

## What the code does otherwise than one might expect

- In a correction round the required runtime messages are the correction and a status. The status is never in the transcript, so the backward scan is exhausted before it reaches the correction, which is then both required and offered as an optional unit (`TurnProjection.CorrectionIsOfferedAgain`; `TurnContext.MatchesAllIffEmbeds` gives the exact condition).
- The exact omission count replaces the first message equal to the reserved index. If the transcript already holds such a message, that one is patched and the index keeps the reserved count (`TurnProjection.IndexIsPatched`, `ShownIndex.EarlierIndexTakesTheCount`). The size bound holds either way.
- A restart that became active just before a shutdown was admitted still begins its callback afterwards (`HostLifecycle.RestartBeginsAfterShutdown`, and exactly when: `HostLifecycle.RestartStillBeginsIff`). A request may coalesce with an active operation that was already finished but not yet cleared (`HostLifecycle.CoalescedIsLive`).
- A ShadowBan silences an identity only for the post-kick window, because pruning then forgets it, although the check for it has no window of its own (`MessageMonitor.PruningEndsShadowBan`, `MessageMonitor.ShadowBanWearsOff`).
- The label of a stored summary is not stored. After a reload it counts from zero again, so the covered range that the model is shown is too small (`ConversationMemory.LabelForgetsStoredCoverage`).
- A tool result view is refused as if its metadata were too large. For an error with data the reason can be its text, which is not cut again when the data cannot be shortened enough (`ResultPreview.ErrorTextCrowdsOut`, and exactly when: `PreviewBounds.TextExceedsWithItIff`).
- A join threshold that is reached while a captcha is cooling down asks for nothing, but its joins are used up all the same (`JoinMonitor.EvidenceIsUsedOnce`).
- History is offered as it comes, without the check that a running transcript gets. A message that is skipped as internal evidence or policy leaves the answers to its calls behind (`HistoryContext.SkippedCallOrphansItsAnswer`); loaded memory has no calls.

## Model

| member | source | states |
|---|---|---|
| MailText.PendingTextIsMembership | internal/service/mail_notes.go:95-98 | for a trip without a comma, the substring test of the pending query holds exactly when splitting the stored list yields the trip |
| MailText.SplitJoinRoundTrip | internal/service/mail_notes.go:69 | splitting what QueueResolved joined gives the trips back exactly if there is at least one and none contains a comma |
| MailText.MailHasRecipient | internal/service/mail_delivery.go:144-154 | the loop answers whether a nonblank, comma-free trip is one of the split recipients |
| MailStore.PendingIsClaimable | internal/service/mail_notes.go:95-98 | the mail that Pending selects for a trip is exactly the mail a claim for it would accept |
| MailStore.MailDatabase.ClaimMail | internal/service/mail_delivery.go:106-142 | a claim commits, rolls back or is lost as the transaction decides; it is reported only when it was allowed and its commit is confirmed |
| MailStore.MailDatabase.SetMailAttempt | internal/service/mail_delivery.go:156-191 | only the row that still holds the attempt moves; the mail becomes DELIVERED exactly when that made every recipient accepted; anything else rolls back |
| MailStore.MailDatabase.MarkMailUnknown | internal/service/mail_delivery.go:193-196 | UNKNOWN is written only over the ATTEMPTING row of the same attempt |
| MailDelivery.StepInv | internal/service/mail_delivery.go:41-142 | every step of any number of workers (claim, send, finalise, mark, crash, cancellation, lost commit) keeps the invariant of tables, transport log and workers |
| MailDelivery.RowStep | internal/service/mail_delivery.go:106-196 | every step leaves a row alone, claims an absent or PENDING one afresh, or lets the holder of its token settle it, to PENDING only if transport was never entered for the recipient |
| MailDelivery.AtMostOnce | internal/service/mail_delivery.go:38-100 | in every run transport is entered at most once per mail and recipient, and what was entered is never PENDING again |
| MailDelivery.DeliveredExactly | internal/service/mail_delivery.go:176-190 | in every reachable state a mail is DELIVERED exactly when each stored recipient has an ACCEPTED row, or it was delivered before rows existed |
| MailDelivery.DeliveredWasSent | internal/service/mail_delivery.go:71-82 | if senders report success only after entering transport, each recipient of a delivered mail was sent to exactly once |
| MailDelivery.FinalRowsStay | internal/service/mail_delivery.go:156-196 | ACCEPTED and UNKNOWN rows never change again in any run |
| MailDelivery.OrphanStays | internal/service/mail_delivery.go:38-40 | the row of a crashed attempt stays ATTEMPTING as it is, and nothing is ever sent for it again |
| MailDelivery.ReturnedNeverSends | internal/service/mail_delivery.go:60-86 | an attempt that returned to PENDING never entered transport and never will |
| MailDelivery.UnconfirmedNeverSends | internal/service/mail_delivery.go:50-56 | a claim whose commit was not confirmed is never sent, whether or not it took effect |
| MailDelivery.CancelUndoesClaim | internal/service/mail_delivery.go:60-70 | cancellation after a confirmed claim leaves the mail as claimable as before |
| MailDelivery.LostReceiptIsMarked | internal/service/mail_delivery.go:87-97 | a send whose receipt was refused ends as UNKNOWN once the mark goes through |
| MailWorker.Pending | internal/service/mail_notes.go:89-98 | the ids in order, all and only those the query selects |
| MailWorker.DeliverPending | internal/service/mail_delivery.go:41-100 | its run is a run of the worker protocol; it reports no error exactly if it was never canceled, no transaction failed and every mail was sent, and then everything that was pending is accepted; otherwise it stops at the first mail that was disturbed, with the error that fits, everything before it accepted and the rest, unless it is the one uncertain send, still to be claimed |
| MailWorker.DeliverAll | internal/service/mail_delivery.go:46-99 | the loop over the pending mail: all accepted when no turn was disturbed, else stopped at the first that was |
| MailWorker.DeliverOne | internal/service/mail_delivery.go:47-59 | one turn of the loop: goes on exactly if undisturbed, ends as canceled only for a cancellation before the send, as failed only for a refused claim, as not started only for a stored receipt of that, as uncertain only for a lost claim, a receipt or release not stored or an ambiguous answer; other mails are left alone |
| MailWorker.ReleaseClaimed | internal/service/mail_delivery.go:60-70 | cancellation after the claim writes PENDING for this attempt and ends the run |
| MailWorker.FinishSent | internal/service/mail_delivery.go:75-97 | the receipt of a send: continue only after a stored ACCEPTED; otherwise end, marking UNKNOWN when the receipt was not stored |
| MailWorker.SendClaimed | internal/service/mail_delivery.go:60-97 | what follows a confirmed claim: release, or one send and its receipt |
| Wire.DecimalWidth | internal/agent/assemble/context.go:163-165 | a larger count is never written shorter |
| Wire.DecimalEscapes | internal/agent/assemble/context.go:185-188 | digits need no escaping inside a JSON string |
| Wire.EscapedLenConcat | internal/agent/assemble/assemble.go:221-227 | the encoded length of text is additive |
| Wire.SerializedConcat | internal/agent/assemble/assemble.go:221-256 | the exact size of two joined message lists: two brackets less, at most one comma more |
| Wire.SerializedUpdate | internal/agent/assemble/assemble.go:221-256 | replacing one message changes the size by exactly the difference of the two |
| ContextBudget.RankingIsUnique | internal/agent/assemble/context.go:75-83 | there is one way to rank a set of units, so neither map order nor sort ties can matter |
| ContextBudget.RankingExists | internal/agent/assemble/context.go:75-83 | every set of units has a ranking |
| ContextBudget.GreedySelects | internal/agent/assemble/context.go:84-92 | one pass down the ranking selects exactly the units that fit beside the selected ones above them, and never overspends |
| ContextBudget.SelectionIsUnique | internal/agent/assemble/context.go:73-92 | the selection is determined by the input alone |
| ContextBudget.SelectionSpendsAtMost | internal/agent/assemble/context.go:84-92 | the selected units cost at most what the required ones left over |
| ContextBudget.SelectUnits | internal/agent/assemble/context.go:73-93 | deduplication, ranking and the greedy pass together compute the unique selection |
| ContextBudget.AssembledSize | internal/agent/assemble/context.go:94-107 | the assembled request costs no more than the sum of its parts |
| ContextBudget.ProjectionFits | internal/agent/assemble/context.go:51-119 | a successful projection is within the character budget, and its tokens with reserve and manifest are within the maximum |
| ContextBudget.ProjectionCounts | internal/agent/assemble/context.go:107-119 | a projection reports its exact size, the least number of four-character tokens that holds it, and the number of units left out |
| ContextBudget.DroppedDidNotFit | internal/agent/assemble/context.go:84-92 | a kept unit is dropped only if it costs more than what is left over |
| ContextBudget.ImportantGoesFirst | internal/agent/assemble/context.go:75-92 | a unit left out beside a selected one is of higher priority only if it costs more; likewise a newer one of the same priority, and a later one that is equal in both |
| ContextBudget.OneKeptPerFingerprint | internal/agent/assemble/context.go:335-357 | of the units with one fingerprint exactly one is kept, and it outranks the others |
| ContextBudget.KeptIsMostImportant | internal/agent/assemble/context.go:335-351 | of the units with one fingerprint the kept one has the highest priority, of these the newest time, and of these the last position |
| ContextBudget.UnitsStayWhole | internal/agent/assemble/context.go:93-106 | a selected unit appears in one piece and the units keep their order |
| ContextBudget.DeduplicateUnits | internal/agent/assemble/context.go:335-357 | the map loop keeps, per fingerprint, the highest ranked unit, in any order |
| ContextBudget.SelectGreedily | internal/agent/assemble/context.go:84-92 | the loop computes the greedy pass |
| ContextBudget.AppendChosen | internal/agent/assemble/context.go:94-105 | the loop appends the selected units of one side in their original order |
| ContextBudget.Project | internal/agent/assemble/context.go:51-119 | succeeds exactly for valid limits and a required part within the budget, with the right error otherwise; the answer is the unique selection around the required messages |
| ToolProtocol.ValidConcat | internal/agent/assemble/context.go:31-33 | valid transcripts can be joined |
| ToolProtocol.ExchangeIsValid | internal/agent/assemble/context.go:251-270 | a call message with each of its calls answered once is a valid transcript |
| ToolProtocol.UnitsAreValid | internal/agent/assemble/context.go:244-291 | whatever the transcript, each unit cut from it is valid on its own |
| ToolProtocol.UnitsConcat | internal/agent/assemble/context.go:244-291 | cutting does not look past a message that is no tool answer |
| ToolProtocol.PlainIsUnit | internal/agent/assemble/context.go:244-291 | a message that neither calls nor answers is always a unit of its own |
| ToolProtocol.RegistryBlockIsOneUnit | internal/agent/assemble/context.go:244-291 | in a list from which nothing is taken out, a block that a batch appended is cut as exactly one unit, the block itself |
| TurnContext.MatchesAllIffEmbeds | internal/agent/assemble/context.go:314-329 | the backward scan finds all required messages exactly when they occur in order |
| TurnContext.MissingHidesEarlier | internal/agent/assemble/context.go:314-329 | a required message that is not in the transcript uses up the scan, so none before it is found |
| TurnContext.MatchRequiredFromStart | internal/agent/assemble/context.go:295-312 | the forward scan: each required message at its first place behind the one before |
| TurnContext.MatchRequiredFromEnd | internal/agent/assemble/context.go:314-329 | the backward scan: each required message at its last place before the one behind |
| TurnContext.PlainIsOffered | internal/agent/assemble/context.go:217-293 | a message that is not required and no part of an exchange is offered as its own unit, on its side of the newest request |
| TurnContext.CutIsValid | internal/agent/assemble/context.go:217-293 | every optional unit of a transcript is a valid exchange or a single message; an exchange has priority 100, another unit 90 behind the newest request and 50 before it |
| TurnContext.CollectRest | internal/agent/assemble/context.go:229-244 | the messages that are not required, in order, each with the side it is on |
| TurnContext.CollectAnswers | internal/agent/assemble/context.go:255-267 | the wanted answers of the tool run behind a call, with exact counts per id |
| TurnContext.CutUnit | internal/agent/assemble/context.go:247-291 | one round of the loop yields the next unit, if any, and skips what belongs to it |
| TurnContext.SplitTurnContext | internal/agent/assemble/context.go:217-293 | the loops compute the cut of the transcript into units before and behind the newest request |
| ResultIndex.ProjectedObservationMessages | internal/agent/assemble/context.go:201-215 | exactly the tool messages with a stored view are replaced by it |
| ResultIndex.IndexShrinks | internal/agent/assemble/context.go:163-165 | a smaller omission count never makes the index message larger |
| ResultIndex.PreviewIsFirst | internal/agent/assemble/context.go:144-157 | the preview bounds are halved no more often than it takes: the size found is the first whose index there is room for, and if none is found there is room for none |
| ResultIndex.ReservedIndexFits | internal/agent/assemble/context.go:144-160 | once the shrinking loop found an index that fits, the later required-context check succeeds |
| ResultIndex.PatchNeverGrows | internal/agent/assemble/context.go:161-173 | the exact omission count is at most the reserved one, and patching it in never grows the request |
| TurnProjection.TurnFits | internal/agent/assemble/context.go:124-176 | every projected request reports its exact size and fits the budget, the tokens and the maximum |
| TurnProjection.IndexIsPatched | internal/agent/assemble/context.go:158-171 | the request is the required messages around whole units with the exact index behind the newest request, unless an earlier message already equals the reserved index: then that one is patched instead |
| ShownIndex.ExactIndexIsShown | internal/agent/assemble/context.go:158-171 | for any projected turn, a reserved index that no message of the turn reads like is shown with the exact count, directly behind the newest request |
| ShownIndex.EarlierIndexTakesTheCount | internal/agent/assemble/context.go:165-171 | otherwise not: a projected turn whose one optional unit reads like the reserved index; the unit gets the exact count and the index keeps the reserved one |
| TurnProjection.RequiredAreKept | internal/agent/assemble/context.go:121-160 | prefix, suffix and runtime messages are all in the request, in this order |
| TurnProjection.TurnIsValid | internal/agent/assemble/context.go:121-176 | for any transcript the projected request is tool-protocol valid |
| TurnProjection.CorrectionIsOfferedAgain | internal/agent/assemble/context.go:128-134 | in a correction round the status message, which is never in the transcript, keeps the correction from being matched, so it is offered again beside its required copy |
| ResultIndex.ShrinkIndex | internal/agent/assemble/context.go:144-157 | the loop finds the first halved preview size whose index fits, or that none does |
| ResultIndex.PatchIndex | internal/agent/assemble/context.go:166-171 | the loop replaces the first message that equals the reserved index |
| TurnProjection.ProjectTurn | internal/agent/assemble/context.go:124-176 | succeeds exactly when the limits are valid and the required part, with an index if there are results, can be afforded; otherwise reports the first error met |
| TurnProjection.AffordableExactly | internal/agent/assemble/context.go:144-160 | the required part is affordable exactly if there is room for it, or with results for an index with some halved preview bounds beside it |
| TurnTranscript.ObservationStore.RecordCall | internal/agent/assemble/observations.go:81-91 | the arguments of a call are kept under its id |
| TurnTranscript.ObservationStore.Store | internal/agent/assemble/observations.go:181-201 | a result and its view are kept under the call id; the order grows only by new ids |
| TurnTranscript.BatchIsKept | internal/agent/live/registry_loop.go:19-39 | storing a batch loses nothing, keeps one view per result and only extends the order |
| TurnTranscript.BatchIsRetrievable | internal/agent/assemble/observations.go:203-222 | each result of a batch can be retrieved unless a later one reused its id |
| TurnTranscript.FaultlessIsAppendable | internal/agent/live/registry_loop.go:23-42 | no fault is reported exactly when every identity matches and every view is within its bound |
| TurnTranscript.AppendRegistryProtocol | internal/agent/live/registry_loop.go:14-51 | a batch of the wrong size touches nothing; otherwise all receipts are kept and the transcript grows by the whole block or not at all, with the last fault found |
| TurnTranscript.SegmentsAreUnits | internal/agent/assemble/context.go:244-291 | a list of appended messages and blocks from which nothing is taken out is cut into exactly these, in order |
| TurnTranscript.TranscriptIsValid | internal/agent/live/registry_loop.go:44-50 | the transcript of any run is tool-protocol valid |
| TurnTranscript.ViewsKeepShape | internal/agent/assemble/context.go:201-215 | replacing results by views keeps every segment a segment with the same calls |
| TurnTranscript.AssemblerProjectTurn | internal/agent/assemble/assemble.go:342-375 | needs a policy and a newest request that is still in the transcript; then it projects around them, exactly if the limits are valid and the required part can be afforded, and otherwise reports the first error met |
| TurnTranscript.AssembledTurn | internal/agent/assemble/assemble.go:342-375 | for any transcript the assembled request is valid, fits, begins with the policy, has the newest request behind it and ends with the runtime messages |
| OfferedSegments.KeptMessages | internal/agent/assemble/context.go:221-243 | taking out required messages, which are plain, leaves the transcript of the other segments |
| OfferedSegments.CutOfRun | internal/agent/assemble/context.go:217-293 | splitTurnContext on the transcript of a run: behind what it offers for the messages in front, each segment that is not a required message is offered once, on its side of the newest request |
| OfferedSegments.BlocksAreOfferedOnce | internal/agent/assemble/context.go:244-291 | between the two sides every block that was appended is offered exactly once, alone in its unit |
| OfferedSegments.RunIsOfferedOnce | internal/agent/assemble/context.go:124-143 | the same for a whole projection, after the runtime messages were taken out and results replaced by their views: no block is taken out, split, joined or offered twice |
| OfferedSegments.AssemblerOffersRun | internal/agent/assemble/assemble.go:342-375 | so each batch that the engine appended is offered exactly once to a request that the assembler projects |
| HostLifecycle.LifecycleOwner.BeginDispatch | internal/core/host_lifecycle.go:86-104 | a lease is granted or refused for the first reason that applies |
| HostLifecycle.LifecycleOwner.Release | internal/core/host_lifecycle.go:105-113 | the lease is given back and the runner signalled |
| HostLifecycle.LifecycleOwner.Request | internal/core/host_lifecycle.go:142-192 | the whole new state of a request: refused, coalesced, or inserted with what it supersedes finished |
| HostLifecycle.LifecycleOwner.Check | internal/core/host_lifecycle.go:209-229 | what the runner decides in its section: close, wait on, or activate the pending operation |
| HostLifecycle.LifecycleOwner.Finish | internal/core/host_lifecycle.go:39-48 | only the first outcome of an operation counts |
| HostLifecycle.LifecycleOwner.ClearActive | internal/core/host_lifecycle.go:235-241 | the slot is cleared and the runner signalled if something is pending |
| HostLifecycle.LifecycleOwner.ClearPending | internal/core/host_lifecycle.go:217-220 | the pending slot is cleared |
| HostLifecycle.LifecycleOwner.Close | internal/core/host_lifecycle.go:282-291 | closing marks, cancels and signals |
| HostLifecycle.StepInv | internal/core/host_lifecycle.go:86-292 | every step of requests, leases, cancellation, closing and the runner keeps the invariant |
| HostLifecycle.ReachableIsSafe | internal/core/host_lifecycle.go:86-243 | in every reachable state a callback excludes leases, two taken slots are an active restart and a pending shutdown, each operation was finished at most once (exactly once outside the slots) and there is at most one shutdown |
| HostLifecycle.AllFinishedAtTheEnd | internal/core/host_lifecycle.go:210-222 | when the runner is gone, which Close waits for, every admitted operation was finished exactly once and no waiter sleeps |
| HostLifecycle.StuckMeansHeldUp | internal/core/host_lifecycle.go:201-243 | a runner that cannot move leaves only a pending operation that a dispatch holds up |
| HostLifecycle.PendingIsTaken | internal/core/host_lifecycle.go:201-228 | a pending request without leases is taken in two steps of the sleeping runner: no wakeup is lost |
| HostLifecycle.ClosingEnds | internal/core/host_lifecycle.go:201-222 | once cancelled, the runner always has a step and each one brings it nearer its end |
| HostLifecycle.Supersession | internal/core/host_lifecycle.go:171-187 | an operation becomes superseded exactly when an admitted shutdown takes its place; it is a restart that never started |
| HostLifecycle.NoRestartAfterShutdown | internal/core/host_lifecycle.go:161-177 | after a shutdown was admitted nothing is inserted and no restart becomes active in any run |
| HostLifecycle.RestartBeginsAfterShutdown | internal/core/host_lifecycle.go:142-243 | a restart callback can begin after a shutdown was admitted: restart requested, woken, checked, shutdown requested, called |
| HostLifecycle.RestartStillBeginsIff | internal/core/host_lifecycle.go:223-243 | once a shutdown was admitted, some run begins the callback of a restart exactly if the runner is about to call it and the context is not canceled |
| HostLifecycle.ActiveRestartStillBegins | internal/core/host_lifecycle.go:223-243 | wherever a restart is about to be called and nothing is pending, a shutdown can still be admitted before the call |
| HostLifecycle.AdmissionMeans | internal/common/host_lifecycle.go:32-36 | an error means nothing was inserted or coalesced; an admission names an operation of its kind that is in a slot |
| HostLifecycle.DispatchIsGranted | internal/core/host_lifecycle.go:86-104 | a dispatch is granted exactly while the owner is open, not terminal and both slots are empty, however many leases there are |
| HostLifecycle.OutcomesAreEarned | internal/core/host_lifecycle.go:204-262 | an operation completes only as its callback returned, with success only if it was called, and is closed without a callback only when the runner leaves |
| HostLifecycle.WakesAreSignalled | internal/core/host_lifecycle.go:194-202 | every signal wakes the runner at most once |
| HostLifecycle.CoalescedIsLive | internal/core/host_lifecycle.go:165-170 | a coalesced operation is still to be finished exactly unless it is the active one that was finished and not yet cleared |
| HostSupervisor.Supervisor.BeginReplace | cmd/zenbot/host_supervisor.go:51-80 | refused for the first reason that applies with nothing changed, else the old host is taken out of publication |
| HostSupervisor.Supervisor.RecordRetirement | cmd/zenbot/host_supervisor.go:142-155 | a failed retirement is remembered as the unretired host, a successful one clears it |
| HostSupervisor.Supervisor.Publish | cmd/zenbot/host_supervisor.go:123-135 | a host is published and bound exactly if admission is open and its context is alive |
| HostSupervisor.Supervisor.EndReplace | cmd/zenbot/host_supervisor.go:82-89 | the candidate can no longer be cancelled |
| HostSupervisor.Supervisor.CloseAdmission | cmd/zenbot/host_supervisor.go:175-185 | admission closes and a running candidate is cancelled |
| HostSupervisor.Supervisor.BeginShutdown | cmd/zenbot/host_supervisor.go:193-206 | publication ends and the host to retire is the published or else the unretired one |
| HostSupervisor.StepInv | cmd/zenbot/host_supervisor.go:45-210 | every step of replacement, shutdown and teardown keeps each built host in exactly one place |
| HostSupervisor.HostsAreConserved | cmd/zenbot/host_supervisor.go:45-210 | whenever the operation lock is free every built host is exactly one of published, retired or unretired, and published and unretired are never both set |
| HostSupervisor.BindingIsUsable | cmd/zenbot/host_supervisor.go:74-134 | the external binding is always the published host: started, not retired, in nobody's hands |
| HostSupervisor.ClosedNeverPublishes | cmd/zenbot/host_supervisor.go:123-128 | nothing is published once admission is closed |
| HostSupervisor.UnretiredBlocks | cmd/zenbot/host_supervisor.go:64-67 | while a cleanup is incomplete nothing is built or published until a shutdown |
| HostSupervisor.ShutdownLeavesNothing | cmd/zenbot/host_supervisor.go:189-210 | after a shutdown every host is retired except one whose retirement failed again |
| HostSupervisor.PublishedExactly | cmd/zenbot/host_supervisor.go:123-135 | a host comes to be published exactly by the last section of the replacement that has it in hand, with admission open and the candidate not canceled; then it is bound too |
| HostSupervisor.CanceledPublishesNothing | cmd/zenbot/host_supervisor.go:82-128 | a replacement that is canceled, by its caller or because admission closes, publishes nothing any more and neither builds nor starts anything new |
| HostSupervisor.ReplacementBegins | cmd/zenbot/host_supervisor.go:51-80 | a replacement begins exactly if admission is open, the caller not canceled, a builder there, no cleanup outstanding and, for the initial one, nothing published; a refused one changes nothing |
| HostSupervisor.ReplacementPublishes | cmd/zenbot/host_supervisor.go:45-137 | every replacement that nothing fails or disturbs ends with the old host retired and a new one published, started and bound |
| HostSupervisor.ReplacementCanFinish | cmd/zenbot/host_supervisor.go:45-137 | such a run to its end exists from every stage, publishing the host that the builder came up with |
| KeyedLock.KeyedLocker.Enter | internal/agent/runtime/keyed_lock.go:20-27 | the entry of the key is found or made and its count grows by one |
| KeyedLock.KeyedLocker.Leave | internal/agent/runtime/keyed_lock.go:32-40 | the count shrinks by one and the last user removes the entry |
| KeyedLock.StepInv | internal/agent/runtime/keyed_lock.go:19-42 | every interleaving keeps counts, entries and mutexes consistent |
| KeyedLock.OneMutexPerKey | internal/agent/runtime/keyed_lock.go:19-42 | at most one thread owns a key, and a waiting thread can lock its entry exactly when nobody owns its key |
| KeyedLock.EntriesAreShared | internal/agent/runtime/keyed_lock.go:19-42 | threads on one key share one entry, its count is the number of its users, and the map holds a key exactly while it is used |
| AgentRuntime.Runtime.Submit | internal/agent/runtime/runtime.go:73-94 | the answer and the new queue and token count |
| AgentRuntime.Runtime.SubmitAmbient | internal/agent/runtime/runtime.go:201-221 | the newest ambient request replaces the pending one; a drainer is started exactly if none is scheduled |
| AgentRuntime.Runtime.TakeAmbient | internal/agent/runtime/runtime.go:230-244 | the drainer takes the pending request or ends its schedule |
| AgentRuntime.Runtime.Close | internal/agent/runtime/runtime.go:262-272 | closing drops the pending ambient request |
| AgentRuntime.StepInv | internal/agent/runtime/runtime.go:73-276 | every step of submitters, workers, executions and drainers keeps the invariant |
| AgentRuntime.AdmissionIsExact | internal/agent/runtime/runtime.go:73-117 | tokens are exactly queued plus unfinished ordinary requests, so the second busy answer cannot occur |
| AgentRuntime.RunnersAreBounded | internal/agent/runtime/runtime.go:115-126 | at most MaxConcurrent runners execute and no two share a memory key |
| AgentRuntime.NoWaitCycle | internal/agent/runtime/runtime.go:119-126 | the waits for keys and slots never form a cycle |
| AgentRuntime.SomeoneMoves | internal/agent/runtime/runtime.go:115-126 | among any executions one can take its next step |
| AgentRuntime.QueuedIsTaken | internal/agent/runtime/runtime.go:96-113 | while the runtime is open a queued request can be taken up at once |
| AgentRuntime.FirstComeFirstServed | internal/agent/runtime/runtime.go:73-113 | requests are taken up in the order of submission, none lost and none twice: what was accepted in a run is what was taken up, followed by what is queued |
| AgentRuntime.AmbientIsNotLost | internal/agent/runtime/runtime.go:201-248 | at most one drainer lives, a pending request has one, and every accepted ambient request is pending; or has an execution of its own that is under way, ran, or gave up because the runtime closed; or gave way to the one accepted next; or was dropped by Close |
| AgentRuntime.OneAmbientAtATime | internal/agent/runtime/runtime.go:223-248 | at most one ambient request is in execution |
| AgentRuntime.FirstAmbientGoesAtOnce | internal/agent/runtime/runtime.go:216-242 | an ambient request that finds no drainer is taken at once by one of its own, whatever ordinary work there is |
| AgentRuntime.DrainerLetsOrdinaryGoFirst | internal/agent/runtime/runtime.go:223-260 | after an ambient request a drainer takes another one only if at some moment since no ordinary request was unfinished, or the runtime closed |
| AgentRuntime.RanMeansRunning | internal/agent/runtime/runtime.go:119-178 | an execution ran exactly if it got a slot and reached its runner, and gives up waiting only when the runtime has closed |
| AgentRuntime.FatesAreFinal | internal/agent/runtime/runtime.go:201-248 | a request that is no longer pending keeps its fate: it is started at most once |
| AgentRuntime.ClosedForGood | internal/agent/runtime/runtime.go:262-276 | after Close returned nothing runs or is accepted any more |
| SnapshotWorkflow.WorkflowGate.Receive | internal/listener/snapshot/coordinator.go:269-278 | the payload is claimed once, and only before the end |
| SnapshotWorkflow.WorkflowGate.Fail | internal/listener/snapshot/coordinator.go:279-291 | the first failure before the end is recorded and cancels |
| SnapshotWorkflow.WorkflowGate.Resolve | internal/listener/snapshot/coordinator.go:336-346 | the gate closes with the failure that is in force |
| SnapshotWorkflow.StepInv | internal/listener/snapshot/coordinator.go:269-465 | every step and every racing event keeps the invariant |
| SnapshotWorkflow.ReportsTruthfully | internal/listener/snapshot/coordinator.go:293-465 | at the end: applied at most once to a claimed payload, completion and start reported once, the session closed once, exact counts, unknown set exactly when something is, and no success after a failed write, reply, flush or close |
| SnapshotWorkflow.OutcomeIsExact | internal/listener/snapshot/coordinator.go:293-366 | at the end of every run the outcome is the one the operation reported if it returned no error, no outward call failed and nothing was in force at the gate, and FAILED in every other case; the state follows |
| SnapshotWorkflow.UnharmedReports | internal/listener/snapshot/coordinator.go:293-465 | a workflow that nothing harms ends with the outcome that its operation, applied once, reported |
| SnapshotWorkflow.AnswersAsItWent | internal/listener/snapshot/coordinator.go:321-333 | a workflow that went well answers what its operation wants, every other one the fallback, if there is somewhere to answer |
| SnapshotWorkflow.PayloadIsKept | internal/listener/snapshot/coordinator.go:269-278 | the first payload of a live workflow is kept until the runner takes it, and then parsed if the context is still alive |
| SnapshotWorkflow.EndStopsWrites | internal/listener/snapshot/coordinator.go:436-447 | once the context has ended nothing but replies gets out |
| SnapshotWorkflow.NothingBeginsAfterTheEnd | internal/listener/snapshot/coordinator.go:407-430 | a workflow whose context ends before it took its payload never applies its operation, and is not started if that was checked |
| SnapshotWorkflow.AcceptedFailureWins | internal/listener/snapshot/coordinator.go:279-291 | an accepted cancellation or failure ends the workflow FAILED in the state that came with it |
| SnapshotWorkflow.NothingAfterTheGate | internal/listener/snapshot/coordinator.go:334-346 | after the gate is closed no failure or payload is accepted |
| SnapshotWorkflow.StateMatchesOutcome | internal/listener/snapshot/coordinator.go:347-366 | the recorded state is COMPLETED exactly for an outcome other than FAILED |
| SnapshotWorkflow.EndedContextFails | internal/listener/snapshot/coordinator.go:336-366 | a context that ended before the gate closed fails the workflow as cancelled or timed out |
| SnapshotCache.Coordinator.Submit | internal/listener/snapshot/coordinator.go:193-220 | an id that is active is refused, another becomes active and pending |
| SnapshotCache.SubmittedIsPending | internal/listener/snapshot/coordinator.go:193-220 | a workflow that was not active is active and pending after its submission; an active one and all others are left alone |
| SnapshotCache.Coordinator.MarkRunning | internal/listener/snapshot/coordinator.go:411-414 | the state of the workflow becomes RUNNING |
| SnapshotCache.Coordinator.Finish | internal/listener/snapshot/coordinator.go:370-387 | the terminal section: the id leaves the active set, is the newest retained one, and the oldest may be evicted |
| SnapshotCache.Remove | internal/listener/snapshot/coordinator.go:373-378 | the loop removes the first occurrence of the id |
| SnapshotCache.IndexIsExact | internal/listener/snapshot/coordinator.go:370-387 | in every run the known states are exactly the active and the retained workflows, the list has no duplicates and at most 256 entries |
| SnapshotCache.EvictionSparesActive | internal/listener/snapshot/coordinator.go:382-387 | finishing a workflow never touches the state of another active one |
| SnapshotCache.OutcomeStaysAvailable | internal/listener/snapshot/coordinator.go:374-387 | an outcome stays available for at least the next 255 finished workflows |
| SnapshotCache.JustFinished | internal/listener/snapshot/coordinator.go:370-382 | a workflow that just finished is no longer active, and is the newest retained one, with its state |
| TurnEngine.TurnState.AdvanceStep | internal/agent/turn/state.go:32-38 | a step is taken exactly if one remains |
| TurnEngine.TurnState.ReserveToolCalls | internal/agent/turn/state.go:46-52 | calls are reserved exactly if they fit the budget |
| TurnEngine.TurnState.MarkToolAttempted | internal/agent/turn/state.go:54-60 | attempts are counted unless negative |
| TurnEngine.TurnState.RecordToolSuccess | internal/agent/turn/state.go:61-67 | a success is counted exactly if an attempt is open |
| TurnEngine.TurnState.RecordToolFailure | internal/agent/turn/state.go:68-74 | a failure is counted exactly if an attempt is open |
| TurnEngine.ValidateBatchIdentity | internal/agent/tool/execution/execution.go:29-45 | a batch is valid exactly if trimmed ids and names are not blank and trimmed ids are distinct |
| TurnEngine.FreshIds | internal/agent/live/turn_engine.go:80-87 | no id of the batch was answered in this turn |
| TurnEngine.ExecuteBatch | internal/agent/live/turn_engine.go:195-216 | the whole batch runs, exactly if the turn is not terminal and it fits the budget, or none of it; every attempt gets one result, counted as a success or a failure |
| TurnEngine.RunBatch | internal/agent/live/turn_engine.go:97-110 | execution and atomic append of a fresh batch: what ran, the whole new state, and the end of the turn exactly if a result cannot be appended or calls came after the correction of a terminal turn |
| TurnEngine.Respond | internal/agent/live/turn_engine.go:66-118 | what the loop makes of a response that is not the accepted answer, as the rules have it: transcript, counters, evidence, correction or end |
| TurnEngine.Advance | internal/agent/live/turn_engine.go:119-125 | the next request is the last one exactly if the turn is terminal, the calls are used up, no tool is left or no step remains; otherwise it takes a step |
| TurnRules.FewerLeft | internal/agent/live/turn_engine.go:48-143 | every round leaves fewer completions: it uses a step, makes the turn terminal, or spends the one correction |
| TurnRules.TerminalExactly | internal/agent/live/turn_engine.go:118-124 | a round is terminal exactly if no tool, no call or no step was left when it, or a round before it, was asked for; until then every request takes one step |
| TurnEngine.ProjectRequest | internal/agent/live/turn_engine.go:258-264 | the request is the projection of the transcript with the current runtime messages, a valid transcript that fits; it fails exactly for the fault there is |
| TurnRules.EndedHasCause | internal/agent/live/turn_engine.go:66-110 | InvalidFinal exactly for an answer after the correction, InvalidProtocol exactly for calls that may not be executed after it, CalledAfterTerminal only for calls of a corrected terminal turn; before the correction only a failed append ends the turn |
| TurnRules.CallsAreDealtWith | internal/agent/live/turn_engine.go:72-110 | the calls of a response are dealt with exactly if it is complete, its ids and names say something, and the ids are distinct and new; each gets the executor's result if the turn is not terminal and the calls fit into what is left, and otherwise the refusal |
| TurnRules.CorrectedExactly | internal/agent/live/turn_engine.go:66-118 | a correction is given exactly by a round that goes on although its response had no well-formed calls or the turn is terminal, and only once; but for a result that cannot be appended only a second one would end the turn |
| TurnRules.CourseAtOnce | internal/agent/live/turn_engine.go:52-64 | a canceled turn ends at once, and an accepted response ends it as the final one |
| TurnRules.EndingsHaveCauses | internal/agent/live/turn_engine.go:39-148 | for any environment a turn ends with a cause: cancellation, the provider, the accepted answer, an invalid response after a correction, or a fault; after at most Remaining + 2 completions, with the last response that came |
| TurnRules.FailsForWantOfRoom | internal/agent/live/turn_engine.go:136-139 | once a turn has begun under sane limits a projection fails only because manifest, required messages or receipts are too large |
| TurnEngine.Complete | internal/agent/live/turn_engine.go:39-148 | the loop takes exactly the course that the rules prescribe, with one acceptable request per completion, that of its round; of the batches exactly those run that come before the turn is terminal and fit into the calls that are left, no id twice, attempts balanced, the transcript grown by proper segments only |
| TurnEngine.FirstRequest | internal/agent/live/tool_loop.go:110-127 | the initial request is acceptable, and the loop starts from a transcript with one policy and the newest request |
| TurnEngine.CompleteTurn | internal/agent/live/tool_loop.go:74-127 | a whole turn from the loaded history on: not opened exactly for the fault there is; otherwise the first request projects the opening, and the turn ends as the rules prescribe; at most MaxSteps + 2 completions, all for acceptable requests; a batch runs exactly if the turn is not terminal and the calls executed so far with those of the batch are at most MaxToolCalls |
| HistoryContext.HistoryContextUnits | internal/agent/assemble/assemble.go:389-412 | the loop groups a message with the answers to its calls right behind it and skips policy and internal evidence |
| HistoryContext.NoSystemMessage | internal/agent/assemble/assemble.go:391-395 | no unit of the history, whatever it is, brings in a system message |
| HistoryContext.UnitsShowTheHistory | internal/agent/assemble/assemble.go:389-412 | if no tool message counts as skipped, only skipped messages are lost and the order stays |
| HistoryContext.UnitsValidIffHistoryIs | internal/agent/assemble/assemble.go:396-409 | if skipped messages are plain, the units are valid transcripts exactly if the history is one |
| HistoryContext.SkippedCallOrphansItsAnswer | internal/agent/assemble/assemble.go:391-409 | the units of a valid history whose answers are all shown are valid exactly if every skipped message is plain: a skipped call leaves its answer behind |
| HistoryContext.OneSkippedCall | internal/agent/assemble/assemble.go:393-395 | such a history: one skipped call and its answer |
| RoomContext.ChunkRows | internal/agent/assemble/assemble.go:428-446 | the rows are cut, all and in order, into chunks that fit or are single rows, each too full for the row after it |
| RoomContext.ChunksAreFull | internal/agent/assemble/assemble.go:428-446 | a chunk of several rows has at most 2048 bytes, and with the first row of the next one it would have more |
| RoomContext.ChunkingIsUnique | internal/agent/assemble/assemble.go:428-446 | there is only one such cut of the rows |
| RoomContext.CutIsUnique | internal/agent/assemble/assemble.go:419-447 | the parts that recent messages are offered in are determined by them |
| RoomContext.RecentContextUnits | internal/agent/assemble/assemble.go:419-447 | one message for each chunk, or for the whole text if it is no row envelope, with the newest creation time |
| InitialRequest.MaxContextTokens | internal/agent/assemble/assemble.go:377-387 | an unset maximum is between 8000 and a million tokens |
| InitialRequest.UnsetMaximum | internal/agent/assemble/assemble.go:377-387 | an unset maximum is twice the prompt characters, at least 8000, and 8000 where these are out of range |
| InitialRequest.OfferedExactly | internal/agent/assemble/assemble.go:295-330 | history counts 50, old evidence 70 and the room 80, in this order; in a whisper only the history is offered |
| InitialRequest.OpensExactly | internal/agent/assemble/assemble.go:295-337 | a turn can be opened exactly if the prompt is not too long, the policy could be rendered, the limits are sensible, and policy and prompt fit into what reserve and manifest leave |
| InitialRequest.Assemble | internal/agent/assemble/assemble.go:295-337 | fails exactly for the first fault there is, of prompt, policy, limits or room; otherwise it projects the policy, the optional units and the prompt |
| InitialRequest.OpeningRequest | internal/agent/assemble/assemble.go:326-336 | whatever history, evidence and room hold, the first request fits, begins with the policy, its only system message, and ends with the prompt; with a sound history it is a valid transcript |
| InitialRequest.MemoryIsSound | internal/agent/live/memory.go:66-73 | loaded memory, messages of users and the assistant without calls, is a sound history |
| ObservationView.FitMessage | internal/agent/assemble/observations.go:424-442 | the binary search keeps the longest prefix of the message that fits, or none |
| ObservationView.FitText | internal/agent/assemble/observations.go:292-304 | the same for a text result |
| ObservationView.FitObservationObject | internal/agent/assemble/observations.go:371-422 | the loops compute the fitted object: fields in order while they fit, object fields in part, then the largest taken out |
| ObservationView.ObjectIsPicked | internal/agent/assemble/observations.go:371-422 | at any depth a fitted object shows some of the fields in order, each whole or in part; every field is shown or counted, and it is whole exactly if none is counted; it exceeds its bound only if no field and no name is left |
| OmittedNames.ObjectIsNamed | internal/agent/assemble/observations.go:379-410 | each name is the path of a missing field; if no list of names was given up they are all of these paths in order, as many as counted |
| ObservationView.WholeIfItFits | internal/agent/assemble/observations.go:378-382 | an object that fits is shown whole |
| ObservationView.FieldsFillUp | internal/agent/assemble/observations.go:378-404 | field by field, what fits beside what was picked before it is shown whole, and a field that is no object and does not fit is named |
| ObservationView.FittedOfNeed | internal/agent/assemble/observations.go:405-422 | what was picked stays if it fits, and otherwise gives up its names first, and then one largest field after the other only while it is too long |
| ObservationView.LargestAt | internal/agent/assemble/observations.go:412-417 | the field taken out is the last of the largest |
| ResultPreview.FitSamples | internal/agent/assemble/observations.go:343-368 | the loop finds the first sample of head and tail rows that fits, or the fields of the smallest that do |
| ResultPreview.SampledIsPart | internal/agent/assemble/observations.go:343-368 | a sample shows first and last rows that do not overlap, or a part of that with the omissions counted |
| ResultPreview.SampledOfNeed | internal/agent/assemble/observations.go:343-368 | no row is given up without need: the sample shown is the first that fits, and only if not even the smallest one does, its fields are fitted |
| ResultPreview.FieldsByKey | internal/agent/assemble/observations.go:343-353 | a field that was put in is found, one that was removed is not, and what has other keys stays |
| ResultPreview.ProjectObservation | internal/agent/assemble/observations.go:243-310 | the view of a result: whole, or shortened as its shape allows |
| ResultPreview.ViewsAreHonest | internal/agent/assemble/observations.go:243-310 | a view shows the whole value or, marked as truncated, a part of it with the omissions counted; a message is only cut at its end; a result that is no error and fits is shown whole |
| ResultPreview.OnlyTheReceiptExceeds | internal/agent/live/registry_loop.go:36-38 | a view exceeds its bound only with a bare payload, and without a message unless it is an error with data |
| PreviewBounds.ObjectExceedsIff | internal/agent/assemble/observations.go:371-422 | an object cannot be fitted exactly if neither all of it fits nor nothing of it with each of its fields counted as omitted |
| PreviewBounds.SamplesExceedIff | internal/agent/assemble/observations.go:343-368 | rows exceed exactly if neither the smallest sample fits nor its fields, counted as omitted |
| PreviewBounds.ViewExceedsIff | internal/agent/assemble/observations.go:243-310 | a view exceeds its bound exactly if the result does not fit whole and neither does the least that can be shown of it, for every shape of result |
| PreviewBounds.TextExceedsWithItIff | internal/agent/assemble/observations.go:250-265 | so more than the receipt exceeds a bound exactly for an error with data whose text was not cut to nothing and beside which the least payload does not fit |
| ResultPreview.ErrorTextCrowdsOut | internal/agent/live/registry_loop.go:36-38 | otherwise it may exceed its bound by its text, not by its metadata alone: an error whose view as received just meets the bound |
| ResultPreview.IndexArguments | internal/agent/assemble/observations.go:155-170 | arguments are shown in full, as the longest prefix of whole characters within the bytes, or not at all, and marked as truncated exactly if they are not shown in full |
| RejectedCalls.PrefixIsLongest | internal/agent/live/turn_engine.go:184-193 | the preview is the longest prefix of whole characters within its bytes |
| RejectedCalls.RejectedCallsFeedback | internal/agent/live/turn_engine.go:150-182 | the halving loop ends for any calls with a diagnostic of at most 1536 bytes, and a bound is halved only if it did not fit |
| RejectedCalls.Diagnose | internal/agent/live/turn_engine.go:166-176 | the diagnostic for one bound, call by call |
| RejectedCalls.UntruncatedIsWhole | internal/agent/live/turn_engine.go:166-176 | a diagnostic is unmarked exactly if it shows all calls and the reason in full |
| ResultPaging.PageGrows | internal/agent/live/observation_tool.go:95-104 | a longer page is never smaller, although done gets shorter when it becomes true |
| ResultPaging.LongestFit | internal/agent/live/observation_tool.go:110-118 | the bisection finds the longest stretch that fits |
| ResultPaging.ReadPage | internal/agent/live/observation_tool.go:76-123 | a page is the longest that fits the limit and the bytes and makes progress; there is none exactly if not even the smallest fits |
| ResultPaging.PageIsLongest | internal/agent/live/observation_tool.go:76-123 | a page has at most the wanted characters, or 6000, in at most 7000 encoded bytes, and one that is longer has not |
| ResultPaging.Execute | internal/agent/live/observation_tool.go:52-123 | the chosen field, or the error for what was not retained; then a page, exactly if the offset is within the field and the smallest page there fits |
| ResultPaging.ReadAll | internal/agent/live/observation_tool.go:76-123 | following nextOffset from 0 with any limits gives exactly the retained content, or stops where no character fits |
| ResultPaging.SmallMetadataIsReadable | internal/agent/live/observation_tool.go:119-122 | metadata that leaves room for one character lets any content be read to its end |
| MessageMonitor.PrunedCounts | internal/agent/moderation/message_monitor.go:163-189 | the pruned window gives the same burst and repetition counts as the whole history |
| MessageMonitor.ThresholdsAreExact | internal/agent/moderation/message_monitor.go:60-84 | a message reaches a threshold exactly if, since the last breach of its identity, there are enough messages in the burst window or enough equal ones in the repetition window |
| MessageMonitor.PruningIsSafe | internal/agent/moderation/message_monitor.go:120-143 | with a clock that does not go back pruning loses nothing that can still matter |
| MessageMonitor.SameVerdict | internal/agent/moderation/message_monitor.go:85-118 | ladder and cooldown see the same through the pruned index as over the whole history |
| MessageMonitor.IdentitiesAreTagged | internal/agent/moderation/message_monitor.go:145-157 | identities of different kinds never meet, and a message has one exactly if its name is not blank |
| SlidingWindow.PruneFront | internal/agent/moderation/message_monitor.go:163-169 | the leading entries that are too old are dropped |
| SlidingWindow.PruneWindows | internal/agent/moderation/join_monitor.go:101-108 | every window is pruned, and one that becomes empty is removed |
| MessageMonitor.CountMessages | internal/agent/moderation/message_monitor.go:170-179 | the number of messages since the cutoff |
| MessageMonitor.CountRepeated | internal/agent/moderation/message_monitor.go:180-189 | the number of equal messages since the cutoff |
| MessageMonitor.Monitor.PruneExpired | internal/agent/moderation/message_monitor.go:120-143 | after pruning the index still represents the history, and every offence in it is recent |
| MessageMonitor.Monitor.Allow | internal/agent/moderation/message_monitor.go:111-118 | an action is allowed exactly if it is not cooling down |
| MessageMonitor.Monitor.Escalate | internal/agent/moderation/message_monitor.go:85-109 | the decision and the new index are those of the verdict over the whole history |
| MessageMonitor.Monitor.OnMessage | internal/agent/moderation/message_monitor.go:58-83 | whatever was pruned, the decision is that of the definition over the whole history |
| MessageMonitor.LadderIsClimbed | internal/agent/moderation/message_monitor.go:85-101 | a ShadowBan directly follows its Kick within the post-kick window, a Kick its Mute within the second-breach window |
| MessageMonitor.LadderIsExact | internal/agent/moderation/message_monitor.go:85-118 | what follows each action at the next breach, in every history: the next rung within its window, nothing within that of a ShadowBan, else the ladder anew; nothing that was taken lately |
| MessageMonitor.FirstBreachIsAnswered | internal/agent/moderation/message_monitor.go:85-118 | the first breach of an identity is warned about, or muted for a repetition |
| MessageMonitor.NoRepeatInCooldown | internal/agent/moderation/message_monitor.go:111-118 | the same action against one identity never repeats within the cooldown |
| MessageMonitor.ShadowBanWearsOff | internal/agent/moderation/message_monitor.go:85-118 | in every history the first breach after a ShadowBan goes unanswered exactly if it comes within the post-kick window, or if the action that begins the ladder anew was taken within the cooldown |
| MessageMonitor.PruningEndsShadowBan | internal/agent/moderation/message_monitor.go:87-90 | the check for a ShadowBan has no window of its own; after pruning it holds exactly for one within the post-kick window |
| MessageMonitor.ShadowBanWearsOffOnce | internal/agent/moderation/message_monitor.go:85-118 | such a history: warned, muted, kicked, banned, unanswered within the post-kick window, and warned again after it |
| JoinMonitor.DropOldIsRecent | internal/agent/moderation/join_monitor.go:142-148 | in the order of the clock, dropping from the front leaves exactly the entries of the window |
| JoinMonitor.Distinct | internal/agent/moderation/join_monitor.go:150-156 | the number of different folded names |
| JoinMonitor.PruningIsSafe | internal/agent/moderation/join_monitor.go:99-127 | with a clock that does not go back pruning loses nothing that can still matter |
| JoinMonitor.SameJudgement | internal/agent/moderation/join_monitor.go:55-94 | through the pruned index a join is judged as over all joins |
| JoinMonitor.StepsMakeTheRecord | internal/agent/moderation/join_monitor.go:66-92 | room, hash and cluster, judged one after the other with the shared captcha cooldown, come to that record and its effects |
| JoinMonitor.Monitor.PruneExpired | internal/agent/moderation/join_monitor.go:99-127 | afterwards the index still represents all joins and has no old entries |
| JoinMonitor.Monitor.Allow | internal/agent/moderation/join_monitor.go:133-141 | an action is allowed exactly if it is not cooling down |
| JoinMonitor.Monitor.OnJoin | internal/agent/moderation/join_monitor.go:55-94 | whatever was pruned, decisions and record are those of the definition over all joins |
| JoinMonitor.ThresholdsAreExact | internal/agent/moderation/join_monitor.go:67-90 | a threshold is reached exactly if the joins since it was last reached, within the window, are enough: in number for the room, in different names for a hash or a cluster |
| JoinMonitor.EvidenceIsUsedOnce | internal/agent/moderation/join_monitor.go:69-90 | joins that led to a threshold never count for a later one |
| JoinMonitor.ActionsCoolDown | internal/agent/moderation/join_monitor.go:128-141 | between captchas, whatever they are for, and between bans of one name, more than the cooldown passes |
| JoinMonitor.OneCaptchaPerJoin | internal/agent/moderation/join_monitor.go:128-141 | one join asks for at most one captcha |
| JoinMonitor.CaptchasAreExact | internal/agent/moderation/join_monitor.go:66-132 | a captcha is asked exactly for the first threshold that a join reaches, and only if none was asked within the cooldown |
| JoinMonitor.DecisionsAreExact | internal/agent/moderation/join_monitor.go:66-92 | the decisions are the captchas that are asked and the ban of the name, each with its reason, once, and nothing else |
| JoinMonitor.BanNeedsTwoSignals | internal/agent/moderation/join_monitor.go:77-81 | a name is banned exactly at the second of two consecutive signals for its hash within the post-kick window, unless the name was banned within the cooldown |
| ReplicaOwnership.ReplicaManager.Add | internal/core/replica_manager.go:22-40 | registered or refused for the first reason that applies |
| ReplicaOwnership.ReplicaManager.Remove | internal/core/replica_manager.go:47-58 | only the owner of the channel, and only the expected one, is taken out |
| ReplicaOwnership.ReplicaManager.StopAll | internal/core/replica_manager.go:65-73 | everything is taken out and nothing may be added any more |
| ReplicaOwnership.StepInv | internal/core/replica_controller.go:34-99 | every step of starts, failures, removals and StopAll keeps the invariant |
| ReplicaOwnership.StartedIsOwnedOrStopped | internal/core/replica_controller.go:50-99 | once quiet a replica is registered, unfailed and never stopped, or out of the map and stopped exactly once |
| ReplicaOwnership.StaleFailureSparesOwner | internal/core/replica_manager.go:45-58 | a late failure never removes another owner of the channel |
| ReplicaOwnership.NothingRegistersAfterStopAll | internal/core/replica_manager.go:22-40 | after StopAll nothing is registered in any run |
| ReplicaOwnership.RegistersExactly | internal/core/replica_controller.go:86-97 | a replica is registered, and its addition a success, exactly if it has not failed, the manager is not stopped, and its channel is not the host's and has no owner; otherwise it is cleaned up |
| ReplicaOwnership.SuccessIsRegistered | internal/core/replica_controller.go:77-99 | an addition is reported as a success only with its registration |
| ReplicaOwnership.FailureEndsOwnership | internal/core/replica_controller.go:67-99 | whenever a replica fails, once quiet it is out of the map and stopped exactly once |
| ReplicaOwnership.HandlersRunOnce | internal/core/replica_controller.go:67-75 | every failure is handled once |
| ConversationMemory.CountLeadingCompleteTurns | internal/agent/turn/compaction.go:85-94 | the number of user and assistant pairs at the front |
| ConversationMemory.LeadingTurnsAreExact | internal/agent/turn/compaction.go:85-94 | so many turns stand at the front, a question and its answer each, and what follows is not another one |
| ConversationMemory.Compact | internal/agent/turn/compaction.go:38-83 | everything raw while the turns fit, otherwise the oldest turns behind one summary, the trimmed answer of the summarizer to them; the error cases in order |
| ConversationMemory.FilterRows | internal/agent/live/memory.go:58-69 | the rows no summary covers, or that one of them is invalid |
| ConversationMemory.LoadContext | internal/agent/live/memory.go:29-96 | a load fails exactly for the first fault there is; otherwise it gives the messages, and the record to store: the trimmed answer of the summarizer, if its fingerprint is new, with the id of the last compacted row |
| ConversationMemory.LoadSucceedsExactly | internal/agent/live/memory.go:29-96 | a load succeeds exactly if every row it looks at says something and, where it has to compact, the limit is positive, a summarizer answers with more than blanks, and there is an id to move the cursor to unless that summary is already stored |
| ConversationMemory.CompactsWholeTurns | internal/agent/turn/compaction.go:43-58 | a load compacts exactly if more complete turns are uncovered than the limit, and takes in whole turns |
| ConversationMemory.CoverageIsExact | internal/agent/live/memory.go:58-82 | each row is under the new cursor or raw in order, never both; exactly the newest turns of the limit stay raw; the cursor moves forward |
| ConversationMemory.NextLoadContinues | internal/agent/live/memory.go:58-82 | the next load starts exactly where this one stopped |
| ConversationMemory.StoredCursorIsNext | internal/agent/live/memory.go:74-96 | storing what a load answers moves the cursor to the end of what it took in, unless that has the fingerprint that is already stored |
| ConversationMemory.SummarisedExactlyOnce | internal/agent/live/memory.go:29-96 | over any number of appends and loads the summarised rows followed by the raw ones are all rows in order |
| ConversationMemory.LabelForgetsStoredCoverage | internal/agent/live/memory.go:54-56 | after a reload the label of a summary counts from zero, so it is right exactly if at most one message was covered before |

## Left out

- SQLite, websockets, HTTP providers, logging and pprof: only their success, failure or unknown outcome appears, as an event or a parameter.
- Real time, random bytes and SHA-256: replaced by a clock parameter, fresh numbers and a fingerprint function.
- The exact text of JSON: only its length is modelled, from the escaping rules of `encoding/json`; characters stand for runes, and invalid UTF-8 does not occur.
- Integer overflow: `ReserveTokens + ManifestTokens` and all counters are unbounded integers here; `PreviewBounds` supposes that an int counts the fields of an object.
- JSON decoding of results: a result is given as a value whose objects list their fields in key order; the receipts of the result index are a function of the two preview bounds, not put together from `ResultPreview`.
- `historicalContextMessage`, `filterTools` and the system prompt (`internal/agent/assemble/assemble.go:63-155,476-566`): texts, given as parameters of the first request.
- The execution ledger, per-tool budgets and the choice of exposed tools: a batch that is handed to the executor may still be refused there call by call; whether any tool is left is a parameter of each cycle.
- Cancellation before the first request, and what a provider call returns beside its error.
- `TurnEngine.validateFinal`, `canSuppressCompletedReply` and the silence marker: whether a final response is accepted is a parameter.
- Reporters, outcome sinks and completion callbacks: called outside the locks, they change no modelled state; of `OnComplete` only the number of calls is kept.
- Contexts of published hosts: cancelling the context of a published or retiring host is not modelled, only that of a candidate.
- `WithTx` panics: a panic in a callback rolls back and unwinds; here a worker that panics is a crash.
- Session lookup by id in the snapshot coordinator, and its `OnSnapshot` wait: events address their workflow directly.
- `AgentRuntime.SomeoneMoves`: progress supposes that runners end; a runner that ignores cancellation blocks its slot and key, as in the source.
- `ConversationMemory.SummarisedExactlyOnce`: supposes that every stored row is loaded and every new summary is stored; the row window and the expiry of the repository can drop rows before they are summarised.
- `ConversationMemory.LoadContext`: the configuration checks of the store and errors of the repository are left out.
- Command handlers, help texts, catalogues, configuration, mention parsing, SQL policy and the legacy connection and lifecycle types: wide code without a protocol of its own.
