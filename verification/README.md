# Agent driver verification model

A Dafny model of the agent driver's stateful core, with proofs about every run of it.  Each module follows one
component of the program: an algorithm that the program runs step by step is a method or a class proved against a
specification function, and the theorems are lemmas about those functions over all inputs, all interleavings and all
reachable states.  `dafny verify dfyconfig.toml` checks everything.

## What is modelled

**Skill catalog transaction** (`SkillTransaction`).  The session directory is reduced to the slots that the
transaction renames: the live catalog, the `active` owner with `new`, `old` and the commit marker, and the quarantined
owners.  Each rename and the marker's creation is one atomic action.  A fault schedule makes any step of any process
fail before it takes effect, fail in the sync or check that follows it, or end in a crash, as often as it likes and
also during recovery.  A system call that reports a failure had no effect; the checks after it may still fail.

**Lossless events** (`EventAdmission`, `EventEntries`, `EventDelivery`, `EventPromises`, `TerminalSettlement`,
`EventPublisher`, `DriverEventPublisher`, `EventFates`, `EventBudget`, `EventRuns`, `EventTheorems`, `EventLinks`,
`EventAcknowledgements`, `EventCopies`, `EventTotals`, `EventHost`, `EventAnswers`, `EventSubmissions`, `EventProgress`,
`EventSettlements`, `EventKeys`, `RuntimeIo`, `AsyncValueQueue`).
The publisher is a state machine whose operations are pushes, the start of a drain, and inside a delivery the host's
receipts, refusals and failures as they arrive; `DriverEventPublisher.Publisher` carries them out on its fields and
carries the operations done so far, so every object has what is proved of every run.
Pushes may come in between any two of them.  Accepted means acknowledged by a receipt; what the host keeps beyond its
receipts is the subject of `EventHost`.  The task that carries a settlement out goes on at any moment with its next
event: it asks again for a closing event that is pending and pushes any other.  It waits only for the drain that it finds
when it begins, and a drain that is scheduled when that one ends may have the event in its hands
(`src/runtimes/driver-event-publisher.ts:661-698`, `849-863`); so the task can push a second copy of an event that is
queued or being delivered, and nothing in the model excludes it.
`RuntimeIo` is one lossless push against a port that stores any prefix and fails at any point.

**Preview streams** (`Preview`, `PreviewReceiver`, `PreviewBuffer`).  The receiver's update rule, the coalescing of a batch as a
rewriting whose meaning is that rule, and the bounded single-flight buffer with its timer.

**Contract state** (`Timestamps`, `RunGraph`, `ContractState`, `ContractReducer`, `ContractHistory`, `ContractChanges`,
`ContractNesting`, `ContractPlay`, `ContractSync`, `Folds`).  Snapshots, their validation, mutations, and replicas that follow an authoritative log.  Checks that look at
the content of one entity only (config, capabilities, plan entries, permission options, answers) are the parameter
`Rules`; every theorem holds whatever they are.  Of the error codes, `session_mismatch` and `revision_gap` are kept
apart and the others are one.

**Run and backend protocols** (`TerminalState`, `TerminalRecords`, `BackendLifecycle`, `BackendStops`, `McpEffects`,
`McpCommand`, `CommandDelivery`, `CommandHandling`).
Promises are tasks that are issued and settle later; a timeout may happen at any moment; abort signals, start tasks,
stop tasks and claim tokens are numbers.  `McpEffects` puts any number of drivers, restarts and redeliveries next to
one durable ledger, with a network that loses, delays and repeats messages.  The ledger is the host's: it is assumed to
grant a claim to one token only, and again to that token.

**Text and ids** (`JsonText`, `JsonEncoding`, `ThoughtContent`, `DriverId`).  Chunking of UTF-16 text under the costs of
QuoteJSONString (section 25.5.2.3 of ECMA-262) and UTF-8 (section 3 of RFC 3629), thought events, and the base-32
arithmetic of the ULID specification.

## Where the obvious statement is false

- Coalescing previews can change what a receiver ends up with.  `Preview.MergeExactIff` says for each merge exactly
  when, `Preview.LosslessIff` for a batch and all its prefixes, `Preview.CoalescingIsExactIff` for a batch as a whole,
  where a merge that loses may be made good by a later update, and `Preview.CoalescingIsExact` is the theorem for
  batches without such a merge, in particular those whose appends start after everything held or sent for their stream
  (`Preview.FreshCoalescingIsExact`).  `Preview.OverlapLosesText` is the family of inputs that lose text.
- Coalescing is not idempotent (`Preview.CoalescingIsNotIdempotent`).  A second pass changes nothing if and only if the
  first left no replacement behind another update of its stream (`Preview.PassIsFixedIff`), and so never after a batch of
  appends (`Preview.AppendsAreFixed`).
- The host can be told two different things about one command.  A rejection is sent beside the command's chain and is
  recorded nowhere, and a command is also rejected when it is delivered again while another run is current: it
  completed, the host was told so, and is told then that it failed (`CommandHandling.SuchRedeliveryHappens`,
  `CommandHandling.RedeliveryTellsAnother`).  `CommandDelivery.SentTerminalsAgreeIff` says exactly when all terminals
  sent for a command agree, `CommandHandling.FinishedCommandsAgreeIff` that a command reported as completed or cancelled
  must never have been refused, and `CommandHandling.ReplayIsRefusedIff` when a redelivery is.
- The backend lifecycle becomes stopped only by the latest, final stop, begun after every start that its shutdown had
  found was over.  A start that is called after that shutdown may be pending when the lifecycle becomes stopped
  (`BackendLifecycle.StartDuringShutdownIsMissed`), or may have settled after the final stop began, so that the backend
  may be running (`BackendLifecycle.StartSettledDuringShutdownIsMissed`).
  `BackendLifecycle.EveryStartWasOverIff` is the exact condition, and `BackendLifecycle.NoStartSuffices` that it is
  enough to call no start from the shutdown on.
- Only lossless events are within the queue's limits; with best-effort events the total can exceed them, from a new
  publisher with two pushes (`EventTotals.TotalCanExceed`).  `EventAdmission.TotalExceedsExactly` says which admissions
  take it over the limit.
- A completed terminal is abandoned only when no receipt for it was heard.  The host may hold it all the same: it stored
  the terminal and the attempt failed before its receipt (`EventHost.AbandonedTerminalMayBeHeld`).  It may hold the
  terminal's id if and only if it was given the id before the slot was taken, or an attempt that had begun on the
  terminal since then ended in a failure or in a refusal that was not for the terminal or an event before it
  (`EventHost.AbandonedMayBeHeldIff`).
- An event on its way does not always have a promise that a push of the same event could wait for.  The second copy
  described above is left without one when the first copy was acknowledged, and the push is then refused
  (`EventCopies.PromiseCanBeMissing`).  That happens exactly when the push adopts an event whose promise was dropped
  (`EventCopies.PromiseMissingIff`), and never while the settlement's task has brought no copy
  (`EventCopies.WithoutCopiesNoneIsMissing`).
- A cancellation can be claimed after `completed` was selected for the run: when that terminal was given up in between
  (`TerminalState.AbandonedSelectionCanBeClaimed`), and only then (`TerminalState.SelectionAndClaimExclude`).
- A terminal Run is frozen until it is removed.  A removed id may be put again while the Session is open, so the
  theorem asks that the Run is present all along.

## Model

| member | source | states |
|---|---|---|
| SkillTransaction.RunFacts | src/runtimes/skill-materialization.ts:635-781 | After any legal sequence of renames and marker creations, by any processes, the session owns exactly the catalog of the last transaction whose marker was created, wherever its directory is |
| SkillTransaction.QuiescentCatalog | src/runtimes/skill-materialization.ts:929-977 | Whenever no owner is active, the live catalog is that of the last committed transaction, or the initial one |
| SkillTransaction.TransactionIsAtomic | src/runtimes/skill-materialization.ts:635-781 | From activation to retirement, whatever crashes and recoveries lie between, the live catalog ends as exactly the new one if the marker was created and exactly the old one otherwise |
| SkillTransaction.NoSecondActivation | src/runtimes/skill-materialization.ts:635-695 | No other transaction activates until the owner is retired |
| SkillTransaction.SkillStore.Attempt | src/runtimes/skill-materialization.ts:783-813 | A rename or marker step either happened whole or not at all, and an error after it happened is possible |
| SkillTransaction.SkillStore.MoveLiveSkillCatalogToBackup | src/runtimes/skill-materialization.ts:697-720 | Moves the live catalog aside without changing which catalog is committed |
| SkillTransaction.SkillStore.RollbackSkillTransaction | src/runtimes/skill-materialization.ts:722-749 | When it returns, the committed catalog is live and no owner is active; without faults it returns |
| SkillTransaction.SkillStore.FinishCommittedSkillTransaction | src/runtimes/skill-materialization.ts:751-781 | When it returns, the committed new catalog is live and the owner can be retired |
| SkillTransaction.SkillStore.RetireMaterializationOwner | src/runtimes/skill-materialization.ts:838-843 | Quarantines exactly the active owner and leaves the live catalog alone |
| SkillTransaction.SkillStore.CommitSkillTransaction | src/runtimes/skill-materialization.ts:635-695 | Completes only with the new catalog live; fails cleanly only with the committed one live; otherwise leaves the rest to recovery |
| SkillTransaction.SkillStore.RecoverSkillTransactions | src/runtimes/skill-materialization.ts:929-1013 | Whenever recovery completes, the live catalog is the last committed one and no owner is active; recovery never commits anything itself |
| SkillTransaction.SkillStore.RunJobs | src/runtimes/skill-materialization.ts:929-1013 | Any number of commits and recoveries that fail or crash anywhere, then a recovery that completes: the live catalog is the initial one or one of those committed |
| Timestamps.CompareIsChronological | src/contract/common.ts:42-74 | Timestamps compare as the instants they denote, however many fraction digits each has, and the comparison is antisymmetric |
| Timestamps.NotBeforeIsTransitive | src/contract/common.ts:62-74 | Time bounds chain |
| RunGraph.AssertAcyclicRunRelation | src/contract/state-validation.ts:24-57 | Terminates, and accepts exactly the relations without a cycle |
| RunGraph.FollowChain | src/contract/state-validation.ts:30-55 | Following one chain finds that it ends, or a cycle |
| RunGraph.AcyclicChainsEnd | src/contract/state-validation.ts:24-57 | Without a cycle every chain of parents or retries ends |
| RunGraph.RemovalClosure | src/contract/reducer.ts:132-151 | The fixpoint loop terminates with exactly the Run and everything below it |
| ContractState.ValidateState | src/contract/state-validation.ts:373-646 | Accepts exactly the valid snapshots, the acyclicity of both relations included |
| ContractState.ActiveRunsHaveOneRoot | src/contract/state-validation.ts:421-491 | In a valid snapshot every active Run reaches, through active parents only, the one active top-level Run |
| ContractState.ActivityIsExact | src/contract/reducer.ts:290-310 | Each activity if and only if: closed when the Session is closed; otherwise requires-action when an open blocking Interaction exists, running when none does and some Run is active, idle when no Run is active |
| ContractState.IdleMeansNothingActive | src/contract/reducer.ts:290-310 | In an idle or closed Session no Run and no Item is active and no Interaction is open |
| ContractReducer.ApplyMutation | src/contract/reducer.ts:31-182 | Computes the specified result of a mutation: refusals in order, the operations from left to right, retry targets and the validation of the outcome |
| ContractReducer.RemoveTree | src/contract/reducer.ts:130-160 | Removes a Run's tree with its Items and Interactions, unless some of the tree is active |
| ContractHistory.PutsAreExact | src/contract/reducer.ts:112-130 | After a mutation of puts each key it names holds what it put, by an allowed transition from what the snapshot held before, and every other key is as it was |
| ContractHistory.OnePut | src/contract/state-validation.ts:337-371 | A put changes its own key only, by the transition rule of its kind |
| ContractHistory.RemovalsAreExact | src/contract/reducer.ts:132-160 | Removals take away exactly the trees of the named Runs as they stood before the mutation, all of it terminal, and nothing else |
| ContractHistory.TerminalRunIsFrozenOrGone | src/contract/reducer.ts:71-181 | One mutation leaves a terminal Run, its Items and its Interactions identical, or removes all of them |
| ContractHistory.TerminalRunsAreFrozen | src/contract/reducer.ts:71-181 | Over a whole history a terminal Run, its Items and its Interactions are the same at every later point until the Run is removed |
| ContractHistory.ClosedSessionsOnlyLoseRuns | src/contract/state-validation.ts:621-645 | A mutation that succeeds on a closed Session consists of Run removals and keeps the Session as it is |
| ContractHistory.ClosedForever | src/contract/invariant.ts:70-106 | Once closed, a Session never changes and only ever loses Runs |
| ContractChanges.RunsGoOn | src/contract/state-validation.ts:121-170 | Over a whole history, while a Run is there it never loses or lowers usage or cost, keeps its currency, origin, input, parent and retry target, and stays as it is once it is over |
| ContractChanges.SessionsGoOn | src/contract/state-validation.ts:98-119 | Over a whole history a Session never loses or changes a capability, keeps its identity and parent, goes on in time, and stays as it is once closed |
| ContractChanges.ItemsGoOn | src/contract/state-validation.ts:172-229 | While its Run is there an Item stays, with the same identity, kind and audience, and keeps its outcome once it is over |
| ContractChanges.InteractionsGoOn | src/contract/state-validation.ts:299-335 | While its Run is there an Interaction stays, with the same request and expiry, and stays as it is once answered or expired |
| ContractChanges.PutIff | src/contract/state-validation.ts:337-371 | A put is taken if and only if it may follow what its key holds, said on the fields of each kind of entity |
| ContractChanges.PutsIff | src/contract/reducer.ts:112-130 | A list of puts to different keys is taken if and only if each may follow what its key held before all of them |
| ContractChanges.PutsAreAcceptedIff | src/contract/reducer.ts:31-182 | The next mutation, if it consists of puts, succeeds if and only if it is not older than the snapshot, names each key once, touches Items of writable Runs only, each put may follow what its key holds, a new Run retries only one that is over, and the outcome is valid |
| ContractChanges.RunIsReplaced | src/contract/reducer.ts:31-182 | An active Run is replaced by any later version of it, one with higher usage for instance, whenever the outcome is valid |
| ContractChanges.RemovalIsAcceptedIff | src/contract/reducer.ts:130-182 | The removal of one Run succeeds if and only if it is there, nothing of its tree is active, and the outcome is valid |
| ContractNesting.RunsAreInTime | src/contract/state-validation.ts:421-491 | A Run begins and ends within the Session and not before it began, and is over when the Session is closed |
| ContractNesting.ItemsAreInTime | src/contract/state-validation.ts:493-545 | An Item lies within its Run and so within the Session, and is active only while its Run is |
| ContractNesting.InteractionsAreInTime | src/contract/state-validation.ts:546-620 | An Interaction lies within its Run; it is resolved before it expires, and one that is open has not expired |
| ContractNesting.SessionIsInTime | src/contract/state-validation.ts:373-420 | A Session was created, updated and closed in this order and captured after that, and is closed exactly when it has a closing time |
| ContractNesting.ParentsEnclose | src/contract/state-validation.ts:450-491 | A parent Run is there, was there first, is active as long as its child and ends no earlier |
| ContractNesting.AncestorsEnclose | src/contract/state-validation.ts:24-57 | So is every Run above it, however far: the Run began no earlier and is over once one of those is |
| ContractNesting.RetriesFollow | src/contract/state-validation.ts:421-491 | A retry began after the Run it retries was over, and no chain of retries goes on for ever |
| ContractNesting.ReferencesResolve | src/contract/state-validation.ts:493-620 | What Items and Interactions refer to is there, in the same Run, and a tool's terminal is a terminal |
| ContractNesting.RunsAreEntitled | src/contract/state-validation.ts:421-491 | A Run of the agent or below another needs the capability, and one of the user some input |
| ContractNesting.EntitiesAreAdmitted | src/contract/state-validation.ts:373-646 | Every entity of a valid snapshot has passed the checks of its own content, and no Session is its own parent |
| ContractNesting.ClosedSessionIsOver | src/contract/state-validation.ts:621-645 | In a closed Session nothing is active or open and nothing ends after it closed |
| ContractPlay.SuchSessionHappens | src/contract/reducer.ts:31-182 | A whole Session happens for any names and contents: it opens, starts a Run with an Item and a blocking question, hears the answer, ends, is closed and cleared, each mutation accepted and each activity as it should be |
| ContractSync.CheckWindow | src/contract/sync.ts:19-85 | Accepts exactly the windows of consecutive revisions of one Session with distinct mutations that end where they say |
| ContractSync.ApplySyncPayload | src/contract/reducer.ts:201-286 | Computes the specified result of a snapshot or a window, refusals included |
| ContractSync.AdvanceKeepsSession | src/contract/reducer.ts:41-57 | A mutation that advances keeps the Session's identity and never moves the capture time back |
| ContractSync.DeliveryMoves | src/contract/reducer.ts:201-286 | One piece of the log moves a replica to the later of where it is and where the piece ends; a window that starts ahead, or one that is too large, is refused without change, and nothing else is |
| ContractSync.ReplicaFollowsTheLog | src/contract/reducer.ts:184-286 | Fed any overlapping, repeated, stale or early windows and snapshots of one log, a replica always holds exactly the fold of the log up to its revision |
| ContractSync.PositionNeverDecreases | src/contract/reducer.ts:218-286 | The replica's revision never decreases |
| ContractSync.SnapshotIsTakenIff | src/contract/reducer.ts:218-255 | A snapshot from anywhere: one of the same Session is passed over when it is older, taken when it was not captured before the one held, refused otherwise, and one of another Session is a mismatch |
| ContractSync.WindowOfAnotherIsRefused | src/contract/reducer.ts:256-286 | A window of another Session is never taken nor passed over |
| Folds.Resume | src/contract/reducer.ts:283-286 | Folding may stop anywhere and go on from there with the same outcome |
| Preview.CoalescePreviewUpdates | src/contract/preview.ts:161-181 | The one-pass program with its index map computes the simple search form |
| Preview.CoalescePerKey | src/contract/preview.ts:122-181 | Coalescing interleaved streams coalesces each stream on its own |
| Preview.CoalescingKeepsSequences | src/contract/preview.ts:79-181 | Whatever the receiver holds, the coalesced batch brings every stream to the same sequence as the original |
| Preview.CoalescingIsExact | src/contract/preview.ts:79-181 | When no merge on the coalescer's way loses anything, the coalesced batch gives the same text, gap and sequence for every stream |
| Preview.FreshCoalescingIsExact | src/contract/preview.ts:79-181 | So it does when every append starts after all that is held or sent before it |
| Preview.LosslessIff | src/contract/preview.ts:122-181 | The coalesced form means the same as the original for a batch and each of its prefixes exactly when no merge loses |
| Preview.MergeExactIff | src/contract/preview.ts:126-159 | Exactly when one merge changes what a receiver ends up with |
| Preview.OverlapLosesText | src/contract/preview.ts:126-159 | Two adjacent appends of which the receiver holds the first: replayed they extend the text, merged they leave a gap |
| Preview.CoalescingIsExactIff | src/contract/preview.ts:122-181 | The coalesced batch leaves a receiver as the original does if and only if in every stream no merge has lost anything since the two last were the same; a loss is made good by a replacement that takes effect, an append over a gap, or two named cases of another lossy merge |
| Preview.PassIsFixedIff | src/contract/preview.ts:161-181 | A second pass changes nothing if and only if the first left no replacement behind another update of its stream |
| Preview.KeyPassIsFixedIff | src/contract/preview.ts:161-181 | The same for a batch of one stream |
| Preview.AppendsAreFixed | src/contract/preview.ts:161-181 | A batch of appends only is left as it is by a second pass |
| Preview.CoalescingIsNotIdempotent | src/contract/preview.ts:161-181 | The failing family: a replacement merged into a later append catches up with the append before it, so a second pass merges again |
| PreviewReceiver.TextIsKnownIff | src/contract/preview.ts:79-118 | A receiver knows a stream's text if and only if at the start or after a replacement that counted it was known and no update since then has left anything out |
| PreviewReceiver.KnownTextIsAssembled | src/contract/preview.ts:79-118 | What it knows is the last replacement that counts with every append that counts after it, whatever came twice or late |
| PreviewReceiver.AnswerIsExact | src/contract/preview.ts:79-118 | An update is a duplicate exactly when it does not count, and a gap exactly when it is an append that counts and leaves something out or follows lost text |
| PreviewReceiver.CoalescingKeepsOrder | src/contract/preview.ts:161-181 | Coalescing keeps the order in which the streams first occur |
| PreviewReceiver.ContiguousBecomesOne | src/contract/preview.ts:126-181 | Appends that go on where the one before ended become one update with all the text |
| PreviewBuffer.EveryUpdateHasOneFate | src/contract/preview.ts:200-318 | Each admitted update is in exactly one flush, one drop, the disposal or the buffer, and each flush is the coalescing of exactly its updates in order |
| PreviewBuffer.FatesAreFinal | src/contract/preview.ts:200-318 | A fate once decided never changes and no admitted update is forgotten |
| PreviewBuffer.Buffer.Push | src/contract/preview.ts:264-303 | Refuses, keeps, flushes first, or drops exactly as the limits say; byte counter, both limits and the timer rule hold afterwards |
| PreviewBuffer.Buffer.Drain | src/contract/preview.ts:226-244 | Starts at most one flush call and takes everything buffered with it |
| PreviewBuffer.Buffer.FlushSettled | src/contract/preview.ts:226-244 | The drain goes on with what was buffered behind it; flush calls never overlap |
| PreviewBuffer.Buffer.DrainEnded | src/contract/preview.ts:226-262 | A flush that was requested meanwhile starts the next drain |
| PreviewBuffer.Buffer.TimerFired | src/contract/preview.ts:246-303 | Flushes what is buffered, or asks the running drain to |
| PreviewBuffer.Buffer.Dispose | src/contract/preview.ts:305-310 | Forgets the buffer and nothing else |
| PreviewBuffer.EncodedSizeIsExact | src/contract/preview.ts:246-303 | The byte counter is that of a JSON array: two brackets, the updates, and a comma between every two |
| AsyncValueQueue.ConsumersSeeAcceptedOrder | src/core/async-value-queue.ts:40-178 | The n-th consumer receives the n-th accepted value, or the end when the accepted and undiscarded values ran out |
| AsyncValueQueue.EveryRunIsOrderly | src/core/async-value-queue.ts:40-178 | Waiters and buffered values never coexist and no accepted value is lost or reordered |
| AsyncValueQueue.Queue.PushMany | src/core/async-value-queue.ts:133-158 | Accepted or refused as a whole, a refusal changes nothing, and each lane's counters equal its sums within its budget |
| AsyncValueQueue.Queue.PushReserved | src/core/async-value-queue.ts:96-131 | The same for the reserved lane |
| AsyncValueQueue.Queue.Next | src/core/async-value-queue.ts:63-90 | Takes the next ticket and serves it from the buffer, the end, or a waiter |
| AsyncValueQueue.Queue.Close | src/core/async-value-queue.ts:40-61 | Ends every waiter and discards the buffer only when told to |
| AsyncValueQueue.Queue.ManyAreTakenIff | src/core/async-value-queue.ts:133-158 | A push is taken if and only if the queue is open, what no consumer waits for can be measured, and the lane holds it beside what it holds |
| AsyncValueQueue.Queue.ReservedIsTakenIff | src/core/async-value-queue.ts:96-131 | A reserved value is taken if and only if the queue is open with a reserve, the value can be measured, and a consumer waits for it or the reserve has room |
| RuntimeIo.PushLosslessEvents | src/core/driver-runtime-io.ts:110-161 | Terminates within two attempts an event; receipts match a prefix one to one; it ends early only for the reason the last answers give, a failed attempt being repeated once after progress; when it returns, a host that dedupes by source id holds each event exactly once, in order |
| RuntimeIo.RedeliveryIsIdempotent | src/core/driver-runtime-io.ts:110-161 | Sending a batch again after any prefix of it was stored leaves the host as if it was sent once |
| RuntimeIo.StoreOverlap | src/core/driver-runtime-io.ts:110-161 | A resend that overlaps what was stored extends it to the furthest event sent |
| RuntimeIo.WithSourceEventIds | src/core/driver-runtime-io.ts:59-65 | Every event has a source id and a chosen one is kept |
| EventAdmission.AdmitDriverEventPush | src/runtimes/driver-event-admission.ts:121-295 | The running sums with early exit decide the same as the totals |
| EventAdmission.MeasureIsSubadditive | src/runtimes/driver-event-admission.ts:61-63 | The measure of a batch is one less than that of its two parts, and never less than that of either |
| EventAdmission.AdmissionTakes | src/runtimes/driver-event-admission.ts:156-295 | No lossless event of an admitted push is left out or reordered; best-effort ones come all together, or as a prefix when alone |
| EventAdmission.AdmissionIsMeasured | src/runtimes/driver-event-admission.ts:170-295 | The counters of an admission are the measures of what it takes; a terminal batch counts for nothing |
| EventAdmission.AdmissionIsSafe | src/runtimes/driver-event-admission.ts:121-226 | With the newcomers the lossless budgets still hold and there is no second terminal batch |
| EventAdmission.BestEffortDoesNotBlockLossless | src/runtimes/driver-event-admission.ts:121-172 | Whether lossless events are refused does not depend on queued best-effort ones |
| EventAdmission.TotalExceedsExactly | src/runtimes/driver-event-admission.ts:152-295 | An admission takes the total over the limit exactly when its lossless events alone do not fit beside everything queued |
| EventAdmission.BestEffortPushIsExact | src/runtimes/driver-event-admission.ts:152-262 | A push of best-effort events only takes the longest prefix the count has room for, whole or not at all, exactly when its bytes fit |
| EventAdmission.MixedPushIsExact | src/runtimes/driver-event-admission.ts:146-262 | A push with lossless events and no terminal is refused exactly when those do not fit or an id is repeated, and takes its best-effort events along exactly when the whole push fits both the count and the bytes |
| EventAdmission.TerminalPushIsExact | src/runtimes/driver-event-admission.ts:121-226 | A push with a terminal is refused exactly in the stated cases and takes exactly its lossless events, in the lane of their own |
| EventAdmission.TerminalRefusalIsExact | src/runtimes/driver-event-admission.ts:127-150 | For which of its terminals' faults a push is refused |
| EventAdmission.QueueFullIsTrue | src/runtimes/driver-event-admission.ts:152-226 | A push is told that the queue is full only when its lossless events do not fit |
| EventTotals.TotalCanExceed | src/runtimes/driver-event-admission.ts:152-226 | A push of best-effort events that fills a new publisher's queue and a lossless push after it: the total is over the limit |
| EventTotals.HeldFitsTheBudget | src/runtimes/driver-event-admission.ts:121-226 | After every run all lossless events held outside the terminal lane fit both limits as one batch |
| EventEntries.AdoptPending | src/runtimes/driver-event-publisher.ts:395-442 | Computes which events of a push are on their way already, which are new, and which clash |
| EventSubmissions.PushesAreToldApart | src/runtimes/driver-event-publisher.ts:395-442 | In every run the events of a push that are on their way are adopted and all others are new, each in their order, and the push fails if and only if one differs from what is on its way or is named twice |
| EventSubmissions.RefusalsAreExact | src/runtimes/driver-event-publisher.ts:191-330 | Exactly when a push is refused for a terminal it may not bring, another Run, a slot that is held, or a terminal batch on its way |
| EventSubmissions.RefusedPushChangesNothing | src/runtimes/driver-event-publisher.ts:191-393 | A push that is refused, but for a missing promise, changes nothing except that a settlement that is over may give up its slot |
| EventSubmissions.ResolvedAtOnceIsBestEffort | src/runtimes/driver-event-publisher.ts:191-350 | A push that succeeds at once without being queued has brought nothing lossless |
| EventSubmissions.PendingTerminalIsRetried | src/runtimes/driver-event-publisher.ts:318-326 | The pending terminal batch, pushed again by its settlement, asks for everything pending and is told what becomes of it |
| EventKeys.PendingTerminalIsKnown | src/runtimes/driver-event-publisher.ts:908-924 | In every run a pending terminal is known by the key of the batch it came in, so its settlement asks again for what is pending instead of finding the lane taken |
| EventKeys.SettlementAsksAgain | src/runtimes/driver-event-publisher.ts:668-698 | In every run the settlement's step for an event that is pending asks for that event again, and for everything pending when it is the terminal |
| EventSubmissions.NewEventsAreQueued | src/runtimes/driver-event-publisher.ts:337-378 | A push that is taken on queues exactly what was admitted of it behind everything else, under the next serials, and waits for it if it holds anything lossless |
| EventEntries.SetPending | src/runtimes/driver-event-publisher.ts:1109-1128 | The pending counters are the measure of the pending list |
| EventDelivery.SpliceRemovesAcknowledged | src/runtimes/driver-event-publisher.ts:950-985 | The splice at the front of the retained list removes exactly the events the receipts are for |
| EventDelivery.RefusalRemovesOne | src/runtimes/driver-event-publisher.ts:985-1030 | A refusal in the middle of a batch takes out the refused event and no other |
| EventDelivery.StrayRefusalBreaks | src/runtimes/driver-event-publisher.ts:985-1003 | A refusal of an event that waits for no receipt only ends the delivery |
| EventDelivery.NextBlockIsPositioned | src/runtimes/driver-event-publisher.ts:935-950 | Splitting a delivery into blocks keeps the retained list equal to what is not dealt with |
| TerminalSettlement.RememberingIsExact | src/runtimes/driver-event-publisher.ts:1130-1173 | In whatever order ids are acknowledged, the settlement's position and the ids beyond it are exactly what was acknowledged |
| TerminalSettlement.OnlyTheTerminalIsLeft | src/runtimes/driver-event-publisher.ts:1175-1190 | The position from which a terminal may be abandoned means everything but the terminal was acknowledged |
| EventTheorems.EveryLosslessEventHasOneFate | src/runtimes/driver-event-publisher.ts:743-1212 | After every run each admitted lossless event is in exactly one place: held, accepted, rejected or abandoned, and held once |
| EventTheorems.RetainedIsLosslessInOrder | src/runtimes/driver-event-publisher.ts:885-1128 | Nothing best-effort is ever retained, and what is held is in order of admission |
| EventTheorems.CountersAreExact | src/runtimes/driver-event-publisher.ts:743-1128 | The queued counters equal the sums over queued and delivering entries, the pending ones the measure of the pending list |
| EventTheorems.BudgetsHold | src/runtimes/driver-event-admission.ts:121-226 | Pending and queued lossless events together never exceed either limit, and at most one terminal batch exists |
| EventAcknowledgements.ResolvedPushesWereAccepted | src/runtimes/driver-event-publisher.ts:310-393 | In every run a push is told that it succeeded only when the host acknowledged each of its lossless events and refused none: the events it brought, and for those it found on their way a copy that was on its way under the promise it found |
| EventLinks.EveryRunPromises | src/runtimes/driver-event-publisher.ts:743-766 | After every run events on their way share an id only as copies of one lossless event, each promise is for the copies on their way with its id, is kept by a receipt for one of them only, and is missing only where it was dropped |
| EventCopies.PromiseMissingIff | src/runtimes/driver-event-publisher.ts:369-378 | A push that is refused for no other reason is refused for a missing promise if and only if it adopts an event whose promise was dropped |
| EventCopies.WithoutCopiesNoneIsMissing | src/runtimes/driver-event-publisher.ts:656-717 | In every run in which the settlement's task brought no copy of an event on its way, no push is refused for a missing promise |
| EventCopies.PromiseCanBeMissing | src/runtimes/driver-event-publisher.ts:656-717 | The failing case: a closing event is being delivered when the settlement's task goes on, the task pushes a copy, the first copy is acknowledged and the copy is left over; a later push of the event finds no promise |
| EventTheorems.ResolvedEntryWasAccepted | src/runtimes/driver-event-publisher.ts:1077-1107 | An entry resolves only when each of its lossless events was acknowledged |
| EventAnswers.EntryIsToldIff | src/runtimes/driver-event-publisher.ts:1077-1098 | In every run that can finish a delivery, an entry is told that it succeeded if and only if the host acknowledged each of its lossless events, and none of the ids it awaits was refused in the delivery or is left over |
| EventAnswers.ResolvedIff | src/runtimes/driver-event-publisher.ts:1077-1107 | An entry has been told so if and only if some delivery of it ended like that |
| EventAnswers.RejectedIdsAreExact | src/runtimes/driver-event-publisher.ts:985-1030 | The refused ids of a delivery are exactly those refused since it started |
| EventAnswers.EveryErrorIsARefusal | src/runtimes/driver-event-publisher.ts:985-1030 | An entry has an error if and only if an event it brought or awaits was refused in the delivery |
| EventAnswers.KeptIff | src/runtimes/driver-event-publisher.ts:1130-1151 | A promise is kept if and only if the host acknowledged an event under it before one was refused or given up |
| EventAnswers.BrokenIff | src/runtimes/driver-event-publisher.ts:985-1030 | A promise fails if and only if an event under it was refused or given up before it was kept |
| EventAnswers.PushSucceedsIff | src/runtimes/driver-event-publisher.ts:310-393 | A push has succeeded if and only if each entry it waits for ended whole and each promise it found was answered |
| EventAnswers.PushWaitsForItsOwn | src/runtimes/driver-event-publisher.ts:310-393 | The promises a push waits for are of events it brought |
| EventProgress.EverythingCanBeDelivered | src/runtimes/driver-event-publisher.ts:865-1128 | From every state of every run, if nobody pushes any more and the host takes what it is given, nothing is left, and every lossless event ever admitted is acknowledged but for those refused or given up before |
| EventProgress.ARefusalSparesTheRest | src/runtimes/driver-event-publisher.ts:985-1030 | In every run, when the host refuses one event and takes the rest, everything the delivery still retained is acknowledged but for that event |
| EventProgress.RefusalGoesOn | src/runtimes/driver-event-publisher.ts:985-1003 | After a refusal the rest of the attempt is attempted again in order, or the delivery goes on behind the block |
| EventPromises.OpenPromises | src/runtimes/driver-event-publisher.ts:743-756 | Opens a promise for each lossless event whose id has none |
| EventPromises.KeepPromises | src/runtimes/driver-event-publisher.ts:1138-1143 | Each receipt keeps the promise under its event's id unless that promise was decided before |
| EventTheorems.SettlementIsExact | src/runtimes/driver-event-publisher.ts:1130-1173 | In every run the settlement's position is exactly what the host acknowledged of it |
| EventSettlements.AcceptedIdsAreExact | src/runtimes/driver-event-publisher.ts:950-1055 | In every run the ids that count as acknowledged in a delivery are those the host acknowledged since it began |
| EventSettlements.ReservationIsExact | src/runtimes/driver-event-publisher.ts:487-607 | The slot is taken exactly when it is free, by closing events and a terminal that clash with nothing on its way, and knows at once what the running delivery has heard of them |
| EventSettlements.ReservationKnowsRefusals | src/runtimes/driver-event-publisher.ts:582-605 | And whether one of them was refused in that delivery |
| EventSettlements.RefusalsAreRemembered | src/runtimes/driver-event-publisher.ts:1003-1012 | The settlement counts as refused exactly once the host has refused one of its events |
| EventSettlements.TaskCanGoOn | src/runtimes/driver-event-publisher.ts:656-717 | A task that failed can be started again and goes on with the event at its position |
| EventTheorems.AbandonedTerminalWasNotAcknowledged | src/runtimes/driver-event-publisher.ts:1175-1212 | A terminal is abandoned only when all its closing events were acknowledged and no receipt for it was heard, and nothing else goes with it |
| EventSettlements.CanBeGivenUpIff | src/runtimes/driver-event-publisher.ts:1175-1212 | In every run a terminal can be given up if and only if its task is not running, the host has acknowledged every closing event and not the terminal, nothing is noted beyond the position, the terminal is neither queued nor in a delivery, and no other terminal is pending |
| EventHost.AbandonedMayBeHeldIff | src/runtimes/driver-event-publisher.ts:950-1055 | When a terminal can be given up, some host holds its id if and only if it was given the id before the slot was taken, or an attempt that had begun on the terminal since then failed or was refused for an event that is not the terminal or before it |
| EventHost.MayBeHeldIff | src/core/driver-runtime-io.ts:110-161 | Beside any operations a host that dedupes by source id can hold an id if and only if it was given an event with it and did not refuse it |
| EventHost.AbandonedTerminalMayBeHeld | src/runtimes/driver-event-publisher.ts:950-1055 | The failing case: the host stored the terminal, the attempt failed before its receipt, and the terminal can be abandoned |
| EventHost.NeverDeliveredIsNotHeld | src/runtimes/driver-event-publisher.ts:926-985 | An event of which no block was ever delivered is not held by the host |
| EventHost.AcknowledgedIsHeld | src/core/driver-runtime-io.ts:110-161 | Every id the host acknowledged is held at every later moment |
| EventHost.ClosingEventsAreHeld | src/runtimes/driver-event-publisher.ts:1130-1190 | When a terminal can be given up, the host holds all its closing events |
| EventRuns.EveryRunFlows | src/runtimes/driver-event-publisher.ts:865-1128 | The invariant of every run behind the fates |
| EventBudget.LeftoverFits | src/runtimes/driver-event-publisher.ts:1055-1128 | What a delivery leaves over is never larger than what was pending and what it took on, although the measure is not additive |
| DriverEventPublisher.Publisher.SubmitPush | src/runtimes/driver-event-publisher.ts:191-393 | Carries out the specified push on the fields and joins the run: kinds and Runs that may push, slot, retry of the terminal batch, adoption with its promises, admission, conflicts |
| DriverEventPublisher.Publisher.SubmitNextOfSettlement | src/runtimes/driver-event-publisher.ts:668-698 | Carries out the next step of the settlement's task on the fields and joins the run: a closing event that is pending is asked for again, any other event is pushed without adoption and without the clash check |
| DriverEventPublisher.Publisher.StartDrain | src/runtimes/driver-event-publisher.ts:865-883 | Joins the run; everything on its way and everything held stays the same, in the same order |
| DriverEventPublisher.Publisher.RetryPending | src/runtimes/driver-event-publisher.ts:444-458 | Joins the run with a request for pending events |
| DriverEventPublisher.Publisher.StartNextBlock | src/runtimes/driver-event-publisher.ts:926-950 | Joins the run with the next block of the delivery |
| DriverEventPublisher.Publisher.PushBestEffortBlock | src/runtimes/driver-event-publisher.ts:1031-1055 | Joins the run with a best-effort block that is pushed once |
| DriverEventPublisher.Publisher.TakeReceipts | src/runtimes/driver-event-publisher.ts:964-980 | Carries out the receipts of one attempt, promises and settlement included, and joins the run |
| DriverEventPublisher.Publisher.TakeRefusal | src/runtimes/driver-event-publisher.ts:985-1030 | Joins the run; the refused event, and it alone, is no longer held, and a stray refusal takes nothing |
| DriverEventPublisher.Publisher.FinishAttempt | src/runtimes/driver-event-publisher.ts:950-985 | Joins the run with an attempt that came back whole |
| DriverEventPublisher.Publisher.BreakAttempt | src/runtimes/driver-event-publisher.ts:985-1003 | Joins the run with a failure that ends the delivery |
| DriverEventPublisher.Publisher.FinishDelivery | src/runtimes/driver-event-publisher.ts:1055-1107 | Keeps the rest as pending, takes the entries off the counters, forgets the promises of what is not pending and decides each entry's promise |
| DriverEventPublisher.Publisher.ReserveTerminal | src/runtimes/driver-event-publisher.ts:520-629 | Takes the terminal slot or changes nothing; a settlement that got it starts from exactly what the running delivery acknowledged, and its terminal is not on its way |
| DriverEventPublisher.Publisher.StepSettlement | src/runtimes/driver-event-publisher.ts:656-742 | Joins the run with a step of the settlement's task |
| DriverEventPublisher.Publisher.Guarantees | src/runtimes/driver-event-publisher.ts:743-1212 | A publisher object always has exact counters, kept budgets, one place for each event and an exact settlement |
| DriverEventPublisher.Publisher.AbandonCancelledTerminalSettlement | src/runtimes/driver-event-publisher.ts:1175-1212 | Gives up a terminal exactly when nothing of it is selected, in flight or queued |
| JsonText.ChunkJsonText | src/runtimes/provider-json.ts:9-64 | Terminates and computes the greedy chunks |
| JsonText.CutIsLongest | src/runtimes/provider-json.ts:18-64 | The binary search finds the longest cut that fits and splits no pair |
| JsonText.ChunksAreExact | src/runtimes/provider-json.ts:9-64 | The chunks concatenate to the text, fit their budgets, split no surrogate pair, are each maximal, and only the first can be empty |
| JsonText.ChunksFailExactly | src/runtimes/provider-json.ts:9-64 | Chunking throws exactly when the text does not fit as it is and some later character fits no chunk on its own |
| JsonText.BytesConcat | src/runtimes/provider-json.ts:5-7 | The cost is additive except that a pair joined across the boundary saves eight bytes |
| JsonEncoding.BytesAreWritten | src/runtimes/provider-json.ts:5-7 | The cost that chunking counts is the number of bytes that are written for the text, escapes and UTF-8 spelled out |
| JsonEncoding.WrittenIsRead | src/runtimes/provider-json.ts:5-7 | What is written for a text can be read back as that text, lone surrogates included |
| JsonEncoding.WrittenIsInjective | src/runtimes/provider-json.ts:5-7 | Different texts are written differently |
| JsonEncoding.ChunksWriteTheText | src/runtimes/provider-json.ts:9-64 | Chunks written one after the other are the bytes of the whole text |
| ThoughtContent.DeltaIsGrowth | src/runtimes/thought-content.ts:11-14 | The incremental count is the true growth for every prefix and delta, split pairs included |
| ThoughtContent.RunningBytesAreExact | src/runtimes/thought-content.ts:7-14 | Adding up deltas over any stream gives the cost of the whole text |
| ThoughtContent.EventFits | src/runtimes/thought-content.ts:16-42 | The budget computed from the largest offset and index is enough for every smaller one |
| ThoughtContent.CreateThoughtContentEvents | src/runtimes/thought-content.ts:16-42 | Fails exactly when text or identity is too large; otherwise no event overflows its bound and the events rebuild the text from their offsets |
| ThoughtContent.LaidOutRebuilds | src/runtimes/thought-content.ts:26-42 | Offsets advance chunk by chunk over the whole text |
| DriverId.DecodeEncode | src/protocol/id/index.ts:98-172 | Decoding inverts encoding for every value that fits |
| DriverId.EncodeDecode | src/protocol/id/index.ts:98-172 | Encoding inverts decoding for every digit string |
| DriverId.OrderIsNumeric | src/protocol/id/index.ts:98-108 | Ids compare as strings exactly as the numbers they write |
| DriverId.EncodeDriverIdTime | src/protocol/id/index.ts:98-108 | The loop writes the ten digits of the time |
| DriverId.TimeRoundTrip | src/protocol/id/index.ts:84-172 | Every time in 0 to 2^48-1 is read back from a canonical id |
| DriverId.DriverIdTimeMs | src/protocol/id/index.ts:166-172 | Reads the time that the first ten digits write |
| DriverId.IdOrder | src/protocol/id/index.ts:174-186 | Ids order by time first and then by their random part |
| DriverId.FromBytesInjective | src/protocol/id/index.ts:148-164 | Every sixteen bytes have their own canonical id, with a first digit of at most 7 |
| DriverId.CreateDriverIdFromBytes | src/protocol/id/index.ts:148-164 | Writes the number that sixteen bytes are, and refuses any other length |
| DriverId.AlphabetIsExact | src/protocol/id/index.ts:20 | The alphabet is the decimal digits and the capital letters without I, L, O and U |
| DriverId.RandomIsExact | src/protocol/id/index.ts:110-125 | Each random digit is the low five bits of its byte |
| DriverId.IncrementCounts | src/protocol/id/index.ts:126-146 | Incrementing counts up modulo 32^16 and wraps exactly from the largest value |
| DriverId.IncrementCrockfordBase32 | src/protocol/id/index.ts:126-146 | The loop from the last digit computes the increment and reports malformed state |
| DriverId.IncrementOrder | src/protocol/id/index.ts:126-186 | On a clock that did not advance, the next id follows the last one exactly unless the random part wraps |
| DriverId.Generator.CreateDriverId | src/protocol/id/index.ts:174-186 | Under any clock successive ids strictly increase except exactly when the random part wraps; fails exactly on a clock outside 48 bits |
| TerminalState.ReachableStatesAreSound | src/core/driver-terminal-state.ts:96-373 | No run is both cancelled and completed, and revisions are given out once |
| TerminalState.AcknowledgedTerminalIsFinal | src/core/driver-terminal-state.ts:153-213 | An acknowledged terminal is never replaced or abandoned by any later calls |
| TerminalState.OneTerminalPerRevision | src/core/driver-terminal-state.ts:181-202 | Over any calls with any tickets a revision acknowledges at most one terminal with one receipt |
| TerminalState.SelectionAndClaimExclude | src/core/driver-terminal-state.ts:118-213 | Over any list of calls a run is never selected completed after its cancellation was claimed, and claimed after that selection only when the selected terminal was given up in between |
| TerminalState.AbandonedSelectionCanBeClaimed | src/core/driver-terminal-state.ts:118-213 | That exception: completed is selected, given up, and the cancellation is claimed |
| TerminalState.SettlementNeedsMatchingTerminal | src/core/driver-terminal-state.ts:240-277 | Input settles as resolved or cancelled exactly on a matching acknowledged terminal |
| TerminalState.InputSettlesOneWay | src/core/driver-terminal-state.ts:240-277 | No list of calls settles the input of one run both as resolved and as cancelled |
| TerminalState.ReleasedTicketsStayStale | src/core/driver-terminal-state.ts:279-291 | A ticket that is no longer current never becomes current again |
| TerminalState.StaleCallsAreInert | src/core/driver-terminal-state.ts:361-372 | A call with such a ticket throws and changes nothing, whatever happened in between |
| TerminalState.AcknowledgedInstanceIsFinal | src/core/driver-terminal-state.ts:313-344 | An acknowledged instance terminal is final and blocks every later run |
| TerminalState.ShutdownOnlyAdvances | src/core/driver-terminal-state.ts:293-311 | The first failure is kept and a completed cleanup is not taken back |
| TerminalState.AnswersTellTheState | src/core/driver-terminal-state.ts:96-291 | In every list of calls the state is what the answers so far say: whose run is current, whether it was claimed, which terminal stands and was acknowledged |
| TerminalState.SelectionIsAnswered | src/core/driver-terminal-state.ts:153-179 | A selection with the current ticket while no terminal stands is superseded if and only if it is completed and the run's cancellation was claimed, and selected otherwise |
| TerminalState.ClaimIsAnswered | src/core/driver-terminal-state.ts:118-140 | A claim with the current ticket is granted exactly when no terminal stands and none was granted before, and told otherwise which of the two it is |
| TerminalState.AcknowledgementIsAnswered | src/core/driver-terminal-state.ts:181-202 | The terminal that stands is acknowledged exactly by a receipt for it |
| TerminalState.ReleaseIsAnswered | src/core/driver-terminal-state.ts:279-291 | The current run is released exactly when the driver is failing or its terminal was acknowledged |
| TerminalState.AnswersTellTheInstance | src/core/driver-terminal-state.ts:313-344 | The instance holds exactly the terminal that was selected and not given up |
| TerminalState.BeginIsAnswered | src/core/driver-terminal-state.ts:96-116 | A run begins exactly when no other is current and no instance terminal stands |
| TerminalState.CancelledTurnSettles | src/core/driver-terminal-state.ts:96-277 | Begin, claim, select cancelled, acknowledge, settle: after any calls that allow the begin, the input is settled as cancelled |
| TerminalState.CompletedTurnSettles | src/core/driver-terminal-state.ts:96-277 | Begin, select completed, acknowledge, settle: the input is settled as resolved |
| TerminalState.ResumeIsAllowedIff | src/core/driver-terminal-state.ts:118-140 | Resuming is allowed exactly while only turn cancellations were asked for |
| TerminalState.FailureIsTheFirst | src/core/driver-terminal-state.ts:297-301 | The failure of the shutdown is the first one recorded |
| TerminalRecords.LastOwnedRunIs | src/core/driver-terminal-state.ts:96-151 | The run owned last is the one that was begun, remembered or released last |
| TerminalRecords.LastTerminalIs | src/core/driver-terminal-state.ts:279-291 | The status that can be read after a run is that of the run released last, exactly if its terminal was acknowledged and no run was begun since |
| TerminalRecords.RememberIsAnswered | src/core/driver-terminal-state.ts:146-151 | A run can be remembered exactly unless another is current |
| TerminalRecords.AbandonIsAnswered | src/core/driver-terminal-state.ts:204-213 | A terminal can be given up exactly while it stands and is not acknowledged |
| TerminalRecords.InstanceCallsAreAnswered | src/core/driver-terminal-state.ts:313-344 | What each call about the instance terminal is answered, from the answers before it |
| TerminalRecords.ShutdownIsExact | src/core/driver-terminal-state.ts:293-311 | A shutdown is recorded exactly once it was requested or a failure was recorded, and its cleanup is completed exactly once that was marked after it |
| TerminalRecords.MarkIsAnswered | src/core/driver-terminal-state.ts:302-308 | The cleanup can be marked exactly after a shutdown was requested |
| TerminalState.DriverTerminalStateMachine.Claim | src/core/driver-terminal-state.ts:118-140 | Carries out the specified claim on the fields |
| TerminalState.DriverTerminalStateMachine.SelectRun | src/core/driver-terminal-state.ts:153-179 | Carries out the specified selection |
| TerminalState.DriverTerminalStateMachine.AckRun | src/core/driver-terminal-state.ts:181-202 | Carries out the specified acknowledgement |
| TerminalState.DriverTerminalStateMachine.AbandonRun | src/core/driver-terminal-state.ts:204-213 | Carries out the specified abandonment |
| TerminalState.DriverTerminalStateMachine.Settle | src/core/driver-terminal-state.ts:240-277 | Carries out the specified settlement of input |
| TerminalState.DriverTerminalStateMachine.Release | src/core/driver-terminal-state.ts:279-291 | Carries out the release and keeps the acknowledged status readable by run |
| TerminalState.DriverTerminalStateMachine.RememberOwned | src/core/driver-terminal-state.ts:146-151 | Carries out the remembering of a run |
| TerminalState.DriverTerminalStateMachine.Request | src/core/driver-terminal-state.ts:293-295 | Carries out the request of a shutdown |
| TerminalState.DriverTerminalStateMachine.MarkCleanup | src/core/driver-terminal-state.ts:302-308 | Carries out the end of the cleanup |
| TerminalState.DriverTerminalStateMachine.SelectInstance | src/core/driver-terminal-state.ts:313-325 | Carries out the selection of the instance terminal |
| TerminalState.DriverTerminalStateMachine.AckInstance | src/core/driver-terminal-state.ts:327-336 | Carries out its acknowledgement |
| TerminalState.DriverTerminalStateMachine.AbandonInstance | src/core/driver-terminal-state.ts:338-344 | Carries out its abandonment |
| BackendLifecycle.EveryRunIsSound | src/core/agent-backend-lifecycle.ts:75-275 | In every interleaving at most one stop is in flight and it is the latest one issued |
| BackendLifecycle.BecomesStopped | src/core/agent-backend-lifecycle.ts:119-275 | The lifecycle becomes stopped only by a final stop that is the latest issued, has resolved, and began after the starts its shutdown had found settled |
| BackendLifecycle.EveryStartWasOverIff | src/core/agent-backend-lifecycle.ts:75-178 | Every start ever called was over when the stop that makes it stopped began, if and only if every start called after that shutdown was |
| BackendLifecycle.NoStartSuffices | src/core/agent-backend-lifecycle.ts:75-178 | So it was when nobody called start from that shutdown on |
| BackendLifecycle.NothingStartsUnlessCalledLater | src/core/agent-backend-lifecycle.ts:75-178 | A start still pending when the lifecycle becomes stopped was called after the shutdown that issued the stop |
| BackendLifecycle.StartSettledDuringShutdownIsMissed | src/core/agent-backend-lifecycle.ts:75-178 | A start called and settled while the final stop runs: the lifecycle becomes stopped with nothing pending |
| BackendLifecycle.StartDuringShutdownIsMissed | src/core/agent-backend-lifecycle.ts:75-178 | There is such a start: one called while the final stop is running |
| BackendLifecycle.ShutdownsAreNotForgotten | src/core/agent-backend-lifecycle.ts:104-275 | After a shutdown was called, in every run the lifecycle is stopped, or an owner is at work, or something is watched that can bring it on, or the last stop was final and was rejected |
| BackendLifecycle.TimeoutIsWatched | src/core/agent-backend-lifecycle.ts:149-243 | An owner that its deadline ends leaves one thing watched, ready exactly when the start it awaited and the stop in flight have settled |
| BackendLifecycle.WatchedBecomesReady | src/core/agent-backend-lifecycle.ts:233-275 | What is watched is ready once no start and no stop is outstanding |
| BackendLifecycle.ShutdownsCanEnd | src/core/agent-backend-lifecycle.ts:104-275 | From every such state, if the outstanding tasks settle and the next final stop resolves, the lifecycle becomes stopped without any further call |
| BackendLifecycle.ShutdownCanBeRepeated | src/core/agent-backend-lifecycle.ts:104-178 | After a rejected final stop one more call of shutdown is enough |
| BackendLifecycle.ShutdownStopsAtOnce | src/core/agent-backend-lifecycle.ts:119-178 | A shutdown with no stop in flight begins a stop at once, unless an earlier one has begun it for the same start |
| BackendStops.OneStartupStopPerStart | src/core/agent-backend-lifecycle.ts:149-178 | However many shutdowns are called and time out, the backend is asked at most once to stop during one start |
| BackendStops.StartsAreJoined | src/core/agent-backend-lifecycle.ts:75-102 | A start is joined while one is pending and issued otherwise, whatever the shutdowns do |
| BackendStops.AwaitedStopDecides | src/core/agent-backend-lifecycle.ts:119-225 | A final stop its owner still awaits ends the shutdown either way, and leaves nothing more watched |
| BackendStops.LateStopDecides | src/core/agent-backend-lifecycle.ts:233-275 | A late stop ends the shutdown exactly when it resolved, is the latest stop and no owner is at work; while one is, it is remembered |
| BackendStops.RememberedStopDecides | src/core/agent-backend-lifecycle.ts:254-275 | A remembered one ends it exactly when that owner failed and no stop was issued after it |
| BackendStops.ALateStopCounts | src/core/agent-backend-lifecycle.ts:233-275 | A late stop that resolves counts even when the owner at work gives up only after it |
| BackendLifecycle.AgentBackendLifecycle.CallStart | src/core/agent-backend-lifecycle.ts:75-102 | Carries out a start on the fields |
| BackendLifecycle.AgentBackendLifecycle.CallShutdown | src/core/agent-backend-lifecycle.ts:104-147 | Carries out a shutdown and creates the cleanup owner |
| BackendLifecycle.AgentBackendLifecycle.OnStartSettled | src/core/agent-backend-lifecycle.ts:112-117 | Carries out the end of a start on the fields |
| BackendLifecycle.AgentBackendLifecycle.OnStopSettled | src/core/agent-backend-lifecycle.ts:227-231 | Carries out the end of a stop on the fields |
| BackendLifecycle.AgentBackendLifecycle.OnWake | src/core/agent-backend-lifecycle.ts:149-225 | Carries out the owner's next step |
| BackendLifecycle.AgentBackendLifecycle.OnTimeout | src/core/agent-backend-lifecycle.ts:184-243 | Carries out a missed deadline and what is watched then |
| BackendLifecycle.AgentBackendLifecycle.OnDeferredReady | src/core/agent-backend-lifecycle.ts:233-252 | Carries out what is watched once it is ready |
| BackendLifecycle.AgentBackendLifecycle.OnLateReady | src/core/agent-backend-lifecycle.ts:254-275 | Carries out the acceptance of a late stop |
| McpEffects.AtMostOneExecution | src/core/driver-command-dispatcher.ts:937-1231 | Across any number of drivers, restarts, redeliveries and lost or repeated messages the tool is executed at most once |
| McpEffects.CompletedMeansSucceeded | src/core/driver-command-dispatcher.ts:1173-1231 | Every completed update carries the one result the ledger holds as succeeded, which is what the one execution returned, for this command |
| McpEffects.NextIsSound | src/core/driver-command-dispatcher.ts:1065-1162 | Every step of every driver, of the ledger and of the network keeps the invariant behind both |
| McpEffects.RepeatingIsSafe | src/core/driver-command-dispatcher.ts:146-152 | A claim or settlement that is repeated changes nothing and hears the same, and no other token is granted the claim |
| McpEffects.AnIntentCompletes | src/core/driver-command-dispatcher.ts:937-1231 | After any run in which nobody has claimed the effect, a new driver can complete it with what the tool returns to it |
| McpEffects.ARecordedSuccessCompletes | src/core/driver-command-dispatcher.ts:937-1063 | Once a success is recorded a new driver can complete with it, without executing |
| McpEffects.AnAbandonedClaimFails | src/core/driver-command-dispatcher.ts:1164-1203 | A claim whose driver never comes back leaves new drivers unsettled until the ledger gives up on it, and then the command can fail |
| McpEffects.CallsAreMadeTwice | src/core/driver-command-dispatcher.ts:146-152 | A fenced call survives one failure and no second one |
| McpCommand.RetryClaim | src/core/driver-command-dispatcher.ts:1079-1103 | Whatever got lost, the claim is made at most once and an answer is the answer to the first claim that arrived |
| McpCommand.ExecuteMcpIntent | src/core/driver-command-dispatcher.ts:1065-1162 | From an intent: the tool runs exactly when the call is prepared, not cancelled, and one of two claims is answered; a result is the ledger's recorded success, and a failure after execution means the ledger knows it as unknown |
| McpCommand.RunMcpCommand | src/core/driver-command-dispatcher.ts:937-1063 | For any schedule of lost requests and replies, each end if and only if: the tool is executed, the command ends with the ledger's success, fails, or is cancelled under exactly the stated circumstances, and nothing is sent when an update after it fails |
| CommandDelivery.RecordedTerminalIsFinal | src/core/driver-command-delivery.ts:160-195 | A command's recorded terminal update never changes |
| CommandDelivery.ChainedTerminalsAgree | src/core/driver-command-delivery.ts:160-236 | Every terminal update a command's chain ever sends is the recorded one |
| CommandDelivery.UnchainedAreRejections | src/core/driver-command-delivery.ts:124-130 | What is sent beside the chain is what rejections carry, all of it |
| CommandDelivery.SentTerminalsAgreeIff | src/core/driver-command-delivery.ts:124-195 | All terminals sent for a command agree if and only if its rejections carried one update and, once the chain has sent the recorded terminal, that one |
| CommandDelivery.ToldTerminalsAgreeIff | src/core/driver-command-delivery.ts:124-195 | For a command reported as completed or cancelled they agree if and only if it was never rejected |
| CommandHandling.FinishedCommandsAgreeIff | src/core/driver-command-dispatcher.ts:552-592 | In every play of deliveries a command reported as completed or cancelled is told one thing only if and only if no delivery of it was refused |
| CommandHandling.UnrefusedCommandsAgree | src/core/driver-command-dispatcher.ts:552-592 | A command whose deliveries were never refused is told one thing only |
| CommandHandling.ReplayIsRefusedIff | src/core/driver-command-dispatcher.ts:692-744 | A finished command is refused on redelivery exactly while another run is current, a stop or the cancellation of a pending input excepted |
| CommandHandling.RedeliveryTellsAnother | src/core/driver-command-dispatcher.ts:562-580 | Any finished command that is redelivered while another run is current is told to have failed |
| CommandHandling.SuchRedeliveryHappens | src/core/driver-command-dispatcher.ts:562-580 | Such a play: received, accepted, completed, delivered again |
| CommandHandling.NewIsRefusedIff | src/core/driver-command-dispatcher.ts:692-744 | Exactly when a command that is not known is refused, kind by kind |
| CommandHandling.ActiveReplayIsRefusedIff | src/core/driver-command-dispatcher.ts:692-744 | A command being worked on is refused exactly while its run is not current, unless its own input is the one that waits or it is a stop |
| CommandHandling.KnownIff | src/core/driver-command-delivery.ts:87-118 | In every play a command is known if and only if a delivery of it was taken on, and under the identity it had then |
| CommandHandling.ANewCommandIsTold | src/core/driver-command-dispatcher.ts:552-592 | After any play a new command that is not refused can be worked on to its end: the host hears accepted and then its terminal, once each |
| CommandHandling.ARedeliveryIsAnswered | src/core/driver-command-dispatcher.ts:562-592 | A finished command that is delivered again and not refused is answered with what was recorded |
| CommandHandling.AnActiveRedeliveryIsAnswered | src/core/driver-command-dispatcher.ts:562-592 | One that is being worked on is accepted again |
| CommandHandling.AnotherIdentityIsIgnored | src/core/driver-command-dispatcher.ts:552-592 | A known command with another identity is neither worked on nor answered |
| CommandDelivery.BrokenChainsAreSilent | src/core/driver-command-delivery.ts:132-195 | After a failed send the command's chain sends nothing more in any run, so its terminal never follows an unacknowledged accepted update |
| CommandDelivery.BrokenIff | src/core/driver-command-delivery.ts:132-236 | A command's chain is broken if and only if the host has not taken what one of its jobs sent: accepted at once, a terminal within three attempts |
| CommandDelivery.EveryRunIsSound | src/core/driver-command-delivery.ts:87-195 | At most 1024 commands are tracked, and at most one terminal delivery is outstanding in a command's chain |
| CommandDelivery.DriverCommandDelivery.ReceiveCommand | src/core/driver-command-delivery.ts:87-118 | New, replayed with the same identity, or refused without change |
| CommandDelivery.DriverCommandDelivery.HasTerminal | src/core/driver-command-delivery.ts:120-122 | Says whether a terminal is recorded |
| CommandDelivery.DriverCommandDelivery.AcceptCommand | src/core/driver-command-delivery.ts:132-158 | Joins the run with one more "accepted" in the command's chain |
| CommandDelivery.DriverCommandDelivery.RunNextJob | src/core/driver-command-delivery.ts:132-195 | Joins the run with the oldest job of a command's chain |
| CommandDelivery.DriverCommandDelivery.FinishCommand | src/core/driver-command-delivery.ts:160-195 | Joins the run; the first update is the one recorded whoever finishes later, and one delivery of it at most is outstanding |
| CommandDelivery.DriverCommandDelivery.RejectCommand | src/core/driver-command-delivery.ts:124-130 | Joins the run; sends at once and leaves the command's record alone |
| CommandDelivery.DriverCommandDelivery.DeliverTerminal | src/core/driver-command-delivery.ts:197-236 | Sends until acknowledged, at most three times and before the deadline |

## Left out

- Real file system calls, fsync, inode identity and quarantine budgets: an owner whose identity changed under the
  transaction, staging left-overs and deletion limits are not modelled.
- WebSocket and oRPC transport, dialing, heartbeats, logging, observability and the benchmark.
- Wire schemas and one-entity content checks: parameters or preconditions.
- Date parsing, clocks, random bytes, hashing, and JSON serialisation except of string contents: instants, random
  bytes, source ids, texts and lengths are inputs.
- The scoping of an event to its Run: events come scoped, and a push says whether it targets another Run.
- Native checkpoints and their pruning after a terminal: the settlement only knows whether its cleanup is complete.
- The scheduling of drains and of the settlement's task: a drain may start, and the task may go on, at any moment.
- A preview flush callback that re-enters the buffer synchronously.
- The session's other commands in the dispatcher, the kernel and the socket, which wire these components together.
- The size limit of a durable tool result, which replaces an oversized text by a shorter one.
- JavaScript numbers: counters are unbounded integers except where a bound is part of the rule.
- ContractReducer.ApplyMutation: the program pushes into and overwrites array elements in place; here each list is
  reassigned as a value, which does not capture aliasing.
- CommandDelivery.DriverCommandDelivery.FinishCommand: a replayed finish that resends after the outstanding delivery
  succeeded appears as one more call, not as a continuation of the first.
