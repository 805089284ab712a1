# Durable workflow runtime: a verified model

A Dafny model of the durable workflow runtime in `workflow/` and its journal in `runlog/`, with
proofs about every run of it. `dafny verify dfyconfig.toml` checks everything.

## What is modelled

**The durable run protocol.** `Runlog` and `CheckpointStore` are the in-memory journal and the
versioned checkpoint store as classes over maps, each method proved against a function on the
store of one run; `StoreSafety` proves what any sequence of calls by anybody keeps.
`RunProtocol` is the write-ahead protocol as a step machine: the durable store, any number of
owners, and steps for saving ahead, appending, delivering, confirming, renewing, reconciling,
interrupt batches, endings, crashes, lease expiry and take-over. The clock readings, the
failures and the order of steps are arbitrary. `RunInvariant`, `RunSafety` and `RunTheorems`
prove its invariant for every interleaving, `RunLaws` states what follows, and `RunProgress`
proves that recovery gets through when nothing fails. `RunLifecycle` proves in which order
attempts, interruptions and endings are journaled and where batches come from, `RunEndings`
which endings leave a run nobody can resume, `RunVersions` what each stored version holds.
`Execution` is the execution object with
its fields and procedures (commit, terminal commit, interrupt batch, recovery, reconciliation);
each method is proved to be a run of steps of that machine, so the laws hold of it.
`InterruptResolution` matches resolutions to pending interrupts.

**The scheduler.** `RunState` holds the queue, activations, fan-out sets, join buckets and
iterator sources and the operations on them; `Topology` is the back-edge search that defines
correlation epochs. `Joins` proves that joins fire at most once for each correlation;
`Settle` that a set is decided exactly when its outcome is certain; `Coordinator` that running
siblings are told to stop exactly then. `Conservation`, `Scheduling`, `SchedulingSafety`,
`RoutingSafety` and `SchedulingLaws` prove the scheduler's invariant over every operation, and
`SchedulingRuns` over whole runs, in which every resume restores what a checkpoint's payload
holds. `Deliveries` and `JoinLaws` prove what routing schedules and that joins get just what was
sent to them, `JoinWaits` when joins fire and which are left waiting (`LateContribution` is an
example), `Epochs` that the entry is no exception to joins firing once, `Results` that records,
outcomes and what is sent on are what the commits gave, `Completions` that completion numbers
are drawn once, `IterRuns` that iterators schedule a
prefix of their items. `OpenSets`, `Announcements` and `Release` are about one set from its
opening to its release or failure, and `Batches` (with `BatchFacts` and `BatchTurns`) is the
batch loop as a class: taking, starting, running, committing, reordering, settling and
releasing, pulling from iterators, until the run has wound up. The class keeps the run it is
part of as a trace; every change it makes is one of the operations.

**What these rest on.** `Codec` is the checkpoint payload as a structural codec, `IterFeed` an
iterator over crashes and resumes, `HistorySearch` the paged searches through journal and
checkpoint history, and `SessionRuns` the run summaries of a session.

Identifiers are numbers where the source has strings built from counters. Payload values,
encoded outputs and errors other than their text are opaque. `routed` and `joined` in the
scheduler state are history variables: which activations were routed and which joins fired.

## What the proofs found

- Ending a run while an interrupt batch is under way (a cancellation after the batch failed part
  way) saves the batch's progress together with the terminal event. If the owner then crashes,
  that version fails the check every resume makes, and the run can never be resumed.
  `RunEndings.EndingIsResumableIff` gives the exact condition, `RunEndings.CanceledInsideBatch`
  an execution, `RunEndings.UnresumableStays` the consequence.
- The same condition fails without any failure or crash: when the context is cancelled between
  storing the interrupted checkpoint and returning, handleError announces a cancellation over a
  checkpoint that is not owned any more. Its event is refused for want of an owner, and the run
  is left running, owned by nobody and waiting, for good
  (`RunEndings.CanceledAfterInterrupt`, `RunEndings.AbandonedForever`).
- The closing event of a batch reports the request an interrupt names apart from its list of
  requests, while the check on resume compares it with the first of the list. A node that
  returns a list only makes every version of its batch unresumable
  (`RunLifecycle.BatchIsResumableIff`, `RunEndings.MisreportedBatch`).
- A run whose process stopped before its start was durable, and which is then resumed, makes
  listing the runs of its session fail (`SessionRuns.ListedIff`, `SessionRuns.ResumedUnstarted`).
  So does every retried or jumped run that is resumed, as each of its attempts reports the retry
  or jump anew (`SessionRuns.ResumedRetry`).
- A branch draws its completion number before it is heard of, so a set may be told to stop for
  one branch and be decided for another that completed earlier (`Coordinator.StoppedIsDecided`,
  `Coordinator.Overtaken`).
- A dispatch that stops the run announces what it selected to joins but delivers nothing; such a
  join never fires (`JoinLaws.StoppedJoinNeverFires`).
- A branch interrupted in the very batch that decides its set keeps the release from going
  through, because only branches that are ready can be cancelled
  (`Release.InterruptedInTheSameBatch`); `Batches.BatchScheduler.CancelQueuedBranches` gives the
  exact condition.
- A closed set with fewer branches than its quorum is neither failed nor left open but an error
  (`Settle.DecideIsExact`).
- The payload keeps an error as its text only: an empty one comes back as no error, and a
  cancellation as an ordinary failure; the output of a failed activation is dropped
  (`Codec.ExactIffPlain`).
- A join does not wait for predecessors that have no scheduled activation
  (`workflow/join_expectation.go:68-78`). If one is scheduled after the join fired, what it
  sends opens the join's bucket again and is never taken up, as the join still waits for
  announcements it got before it fired. Which of two ready joins fires first is up to the order
  in which a map is walked, so the same run may lose an output or not
  (`LateContribution.LateContributionIsLost`, `LateContribution.OrderDecides`).
  `JoinWaits.LeftIncompleteIff` gives the exact condition.

## Model

| member | source | states |
|---|---|---|
| `Runlog.MemoryLog.Append` | runlog/runlog.go:174-201 | Appending a record already stored under its run and sequence succeeds without a second copy, a different record under that key is refused, and nothing stored is ever rewritten; the index keeps agreeing with the list |
| `Runlog.MemoryLog.List` | runlog/runlog.go:204-236 | A listing is exactly the matching records in append order, cut to the limit; bad queries and done contexts list nothing |
| `Runlog.AppendIsPerRun` | runlog/runlog.go:174-201 | Appending to the shared log has the outcome it would have on the run's own records alone, and leaves every other run's journal as it was |
| `Runlog.MatchingPerRun` | runlog/runlog.go:204-236 | A listing restricted to a run depends on that run's records only |
| `Runlog.MatchingSuffix` | runlog/runlog.go:204-236 | On a gap-free journal, listing a run after a sequence gives exactly the stretch behind it |
| `CheckpointStore.MemoryStore.Create` | workflow/checkpoint_store.go:63-89 | Creates version 1 of a run that has none, with the lease counted from the store's clock; every refusal changes nothing and other runs are untouched |
| `CheckpointStore.MemoryStore.Load` | workflow/checkpoint_store.go:92-109 | Gives the head of a run, exactly when there is one |
| `CheckpointStore.MemoryStore.Claim` | workflow/checkpoint_store.go:112-152 | Grants a claim only on the current, non-terminal version of the same identity, once its lease is over and for the next claim sequence; all refusals as in the source, with no effect |
| `CheckpointStore.MemoryStore.RenewLease` | workflow/checkpoint_store.go:155-186 | Moves the lease of the current claim forward, never backwards, and touches nothing else; refused, with no effect, once the lease is over or the claim, owner or status is another |
| `CheckpointStore.MemoryStore.Write` | workflow/checkpoint_store.go:228-281 | Save and Finish by compare-and-swap under the current claim and a live lease; the kept lease is the later of the old and the new one |
| `CheckpointStore.MemoryStore.AppendFenced` | workflow/checkpoint_store.go:30-48 | Journals a record only for the owner and claim the head names, while the run is running and its lease is live; refused, with no effect, otherwise |
| `CheckpointStore.MemoryStore.ListCheckpoints` | workflow/checkpoint_store.go:199-226 | Lists the versions after a given one in ascending order, cut to the limit |
| `StoreSafety.RefusalChangesNothing` | workflow/checkpoint_store.go:30-281 | Whatever call is refused, the store stays as it was |
| `StoreSafety.ReachableIsWellFormed` | workflow/checkpoint_store.go:63-299 | After any calls by anybody, versions are exactly 1..n, the head is the last one up to a later lease, claim sequences never decrease, and only the last version can be terminal |
| `StoreSafety.HistoryOnlyGrows` | workflow/checkpoint_store.go:63-299 | Any further calls only append to history and journal |
| `StoreSafety.TerminalIsFrozen` | workflow/checkpoint_store.go:112-281 | Once a terminal version is stored, no sequence of calls changes anything about the run |
| `StoreSafety.ClaimsNeverDecrease` | workflow/checkpoint_store.go:112-281 | The head's claim sequence never goes down |
| `StoreSafety.SupersededClaimIsFenced` | workflow/checkpoint_store.go:112-281 | After a claim is granted, no save, finish, renewal, append or claim under a smaller claim sequence ever succeeds, however many calls come in between |
| `StoreSafety.ClaimGrant` | workflow/checkpoint_store.go:112-152 | A claim is granted exactly one above the head's, after its lease, and is authorised at once |
| `StoreSafety.LeaseWindowsDoNotOverlap` | workflow/checkpoint_store.go:112-281 | A held claim keeps at least its expiry until its owner gives it up or a successor is granted, and a successor is not granted before that expiry |
| `StoreSafety.ClaimIsGranted` | workflow/checkpoint_store.go:112-152 | Once the head's lease is over, a proper claim of the next sequence is granted, with a lease from the store's clock |
| `StoreSafety.GivenUpCanBeClaimed` | workflow/checkpoint_store.go:112-281 | A run its owner has given up can be claimed at any time from then on |
| `StoreSafety.LeaseIsGranted` | workflow/checkpoint_store.go:63-281 | An accepted call that names an owner lets it hold the run for at least as long as it asks, and shortens no lease |
| `StoreSafety.ExpiredIsRefused` | workflow/checkpoint_store.go:30-281 | Once the head's lease has run out, no append and no renewal by anybody succeeds, nor any write while the run has an owner; nothing changes |
| `StoreSafety.OnlyTheHolderActs` | workflow/checkpoint_store.go:30-281 | Appending and renewing succeed only for the owner of a running head, under its claim and before its lease expires; a write only under the head's claim, on its version, and before the lease of whoever owns the run expires |
| `StoreSafety.LostStaysLost` | workflow/checkpoint_store.go:155-281 | A lease once lost, to a later claim, another owner, another status or the clock, is lost for good, whatever calls follow |
| `StoreSafety.LostNeverActs` | workflow/checkpoint_store.go:155-281 | Whatever calls follow the loss of a lease, every append, renewal and write of its owner under that claim is refused and changes nothing |
| `InterruptResolution.ResolvePendingInterrupts` | workflow/workflow.go:2975-3021 | Succeeds exactly when every pending interrupt is resolved once and nothing else is; the answers come in pending order with their own facts; errors name the offending interrupt |
| `InterruptResolution.ValidateResolvedInterruptReplay` | workflow/workflow.go:3023-3074 | Accepts a replay exactly when it is empty or makes the same associations as the durable answers, each once |
| `InterruptResolution.AnswersAreUnique` | workflow/workflow.go:2975-3021 | The order in which resolutions are supplied makes no difference to the answers |
| `InterruptResolution.ResolvedMayBeReplayed` | workflow/workflow.go:2975-3074 | What a resume resolved may be replayed later in full or not at all, and nothing else may |
| `RunInvariant.StampIsFixpoint` | workflow/workflow.go:1700-1733 | Stamping an event that is already stamped for that sequence changes nothing, whenever it is done: the reason a re-appended pending event is the same record |
| `RunInvariant.EntryIsGenuine` | workflow/workflow.go:1991-2033 | A stamped event survives the projection to a journal record and back, and its record passes the identity check of recovery |
| `RunSafety.SaveKeeps` | workflow/workflow.go:3076-3113 | Saving a sound record keeps the protocol invariant, whether or not the store takes it |
| `RunTheorems.StepKeeps` | workflow/workflow.go:1642-2089 | Every step of an owner keeps the invariant of store and owner, and history, journal and offers only grow |
| `RunTheorems.TakeOverKeeps` | workflow/workflow.go:2930-2973 | A granted claim brings in a restored owner that agrees with the durable state |
| `RunTheorems.Reachable` | workflow/workflow.go:1642-2563 | Over every interleaving of any number of owners, their failures, crashes, lease losses and take-overs, and also when an execution is cancelled after it left its run interrupted, the protocol invariant holds |
| `RunLaws.JournalAndCursor` | workflow/workflow.go:1642-1692 | The journal is exactly sequences 1..n, the confirmed cursor is at most n, and a pending event has the next sequence and is either not journaled yet or is exactly the record journaled there |
| `RunLaws.TerminalIntentIsKept` | workflow/workflow.go:2532-2563 | Once a terminal outcome is announced durably, every later version carries it on or has ended with it |
| `RunLaws.CursorNeverGoesBack` | workflow/workflow.go:2059-2089 | The confirmed cursor never goes back from a version to a later one |
| `RunLaws.TerminalEventIsLast` | workflow/workflow.go:2532-2563 | At most one terminal event is journaled, as the last record, and an ended run has the outcome it reports |
| `RunLaws.ConfirmedWasOffered` | workflow/workflow.go:1642-1663 | No sequence is confirmed before some owner offered it to the sinks |
| `RunLaws.OffersAreContiguous` | workflow/workflow.go:1977-1989 | Each owner offers the sequences right after the cursor it began with, one by one: only what was unconfirmed can be delivered twice |
| `RunLaws.VersionsAreResumable` | workflow/workflow.go:1781-1829 | Of the versions short of an ending a resume accepts exactly those without an interrupt batch under way, or whose batch closes with a report of the first of its waits |
| `RunLifecycle.BatchIsResumableIff` | workflow/workflow.go:2312-2339 | Every version written while a batch is under way passes that check if the interrupt the batch was begun with names the first of the waits as its own request, and none does otherwise |
| `RunEndings.MisreportedBatch` | workflow/workflow.go:2312-2339 | It happens: an interrupt whose own request is not the first of its list leaves, from the first save of its batch on, a version no resume accepts |
| `RunLifecycle.InterruptedAfterWholeBatch` | workflow/workflow.go:2312-2393 | A run is interrupted only with its whole batch at the journal's end, each event once and in order, for exactly the waits some owner began it with; the closing event reports the request that owner's interrupt named |
| `RunLifecycle.AttemptsAreInOrder` | workflow/workflow.go:2045-2057 | A journal begins with the start of its run exactly if that was made durable; a run that was not retried or jumped starts at most once; between two interruptions an attempt is started |
| `RunLaws.AppendNeverConflicts` | workflow/workflow.go:1642-1692 | The current owner's append is never refused as a conflict |
| `RunEndings.EndingIsResumableIff` | workflow/workflow.go:1781-1829 | The version that announces an ending passes a resume's check exactly when no interrupt batch is under way and the run waits for nothing |
| `RunEndings.CanceledInsideBatch` | workflow/workflow.go:2508-2563 | It happens: cancelling after a batch failed part way, and crashing, leaves a head that no resume accepts |
| `RunEndings.UnresumableStays` | workflow/workflow.go:2879-2894 | Such a run can never be taken over again, by any number of resumes |
| `RunEndings.CanceledAfterInterrupt` | workflow/workflow.go:2473-2563 | It happens, for whatever a run waits and without any failure or crash: cancelled just after it was left interrupted, it is announced to end by nobody and still waits |
| `RunEndings.AbandonedForever` | workflow/workflow.go:2532-2563 | Whatever anybody does from then on, such a run is never resumed nor ended, and nothing more is journaled |
| `RunProgress.QuietStep` | workflow/workflow.go:1642-1692 | A step that meets no failure goes through: every save, finish and append of an owner that holds its claim is accepted |
| `RunProgress.QuietRun` | workflow/workflow.go:1749-1779 | As long as nothing fails and the lease lasts, a recovering owner is never refused anything |
| `RunVersions.EveryVersionIsWritten` | workflow/workflow.go:2930-3194 | Over every execution each version was written by one move and holds what that move was given: the work of a save or an ending is the move's own, a claim and a lease given back keep the work of the version before; a claim takes over cursor, pending event, announced outcome and batch |
| `RunVersions.AnswersStay` | workflow/workflow.go:2930-2973 | Once an interrupted run has been resumed, all versions up to its next interruption hold exactly the answers to what it waited for |
| `RunVersions.ReplaySafeIff` | workflow/workflow.go:2059-2105 | A version saved ahead of a running event is marked safe to replay exactly if that event is the run's start |
| `RunProgress.KnowsTheJournal` | workflow/workflow.go:1944-1975 | An owner that is restored, or at work, has its cursor and sequence at the journal's length |
| `Execution.WorkflowExecution.constructor` | workflow/workflow.go:1853-1890 | Takes over with the cursor, batch and pending event the claimed record holds |
| `Execution.WorkflowExecution.SaveCheckpoint` | workflow/workflow.go:3076-3113 | On success the store's head and newest version hold the scheduler state this save was given, the current cursor and the event that is pending, and the record is kept; otherwise nothing was written |
| `Execution.WorkflowExecution.CloseCheckpoint` | workflow/workflow.go:3165-3194 | Writes the ending record, with nothing pending and no owner |
| `Execution.WorkflowExecution.ReleaseCheckpointLease` | workflow/workflow.go:1544-1580 | Gives the lease back with the payload saved last |
| `Execution.WorkflowExecution.AppendFencedEvent` | workflow/workflow.go:1642-1663 | Appends under the fence; a lost lease stops the execution, any other refusal fails it for good |
| `Execution.WorkflowExecution.DeliverEvent` | workflow/workflow.go:1642-1692 | Offers the event to the sinks and moves the cursor, and the batch, only if they take it |
| `Execution.WorkflowExecution.EmitEvent` | workflow/workflow.go:1613-1634 | Appends and delivers an observed event without saving; refused after a sink failure |
| `Execution.WorkflowExecution.CommitRunningEvent` | workflow/workflow.go:2059-2089 | Is a run of protocol steps: save with the event pending, append, deliver, save the confirmed cursor; cut short anywhere it has made the first of them; success wrote two versions, each with the scheduler state of its own save, and leaves cursor, sequence and durable cursor one further |
| `Execution.WorkflowExecution.CommitTerminalEvent` | workflow/workflow.go:2532-2563 | The same for the terminal event, ending with the announced outcome |
| `Execution.WorkflowExecution.FinishInterrupt` | workflow/workflow.go:2312-2339 | Waits without or with shared identifiers are refused before anything is done; otherwise one event per wait and a closing one, reporting the first interrupt's own request, are committed in order and the run is interrupted on exactly these waits |
| `Execution.WorkflowExecution.ContinueInterruptBatch` | workflow/workflow.go:2341-2362 | Commits what is left of the batch, event by event, then gives the run up as interrupted |
| `Execution.WorkflowExecution.CommitInterruptBatchEvent` | workflow/workflow.go:2364-2393 | Save ahead, append, deliver, confirm, with the progress of the batch moving exactly when the sinks took the event |
| `Execution.WorkflowExecution.InterruptCheckpoint` | workflow/workflow.go:3115-3163 | The batch is forgotten only when the interrupted record was stored |
| `Execution.WorkflowExecution.ReplayPending` | workflow/workflow.go:1898-1942 | Emits the pending event again as the same record and carries out the announced outcome, or confirms |
| `Execution.WorkflowExecution.ReconcileJournal` | workflow/workflow.go:1944-1975 | Replays the journal behind the cursor page by page and terminates; a run of protocol steps |
| `Execution.WorkflowExecution.ReplayJournalPage` | workflow/workflow.go:1977-1989 | Offers a page record by record, each checked against the run and the next sequence |
| `Execution.WorkflowExecution.EmitLoaded` | workflow/workflow.go:1749-1779 | Reports that the run was restored, behind all the journal held |
| `Execution.WorkflowExecution.StartAttempt` | workflow/workflow.go:2045-2057 | Commits the event that starts the attempt, resumed or not; only then may the execution work |
| `Execution.WorkflowExecution.Restore` | workflow/workflow.go:1749-1779 | Recovery terminates whatever the surroundings do; if nothing fails while the lease lasts it succeeds; when it leaves the run to be resumed, cursor and sequence equal the journal's length, its own report included |
| `Execution.ClaimCheckpoint` | workflow/workflow.go:2930-2973 | Claims exactly if the resolutions fit and the store agrees, with the answers in the claimed record; changes nothing otherwise |
| `Execution.Resume` | workflow/workflow.go:2850-2894 | A resume gets the run exactly if its checkpoint passes the check, the resolutions fit and the claim is granted; then, as long as nothing fails while the lease lasts, it gets to work knowing the whole journal, or finishes what was under way |
| `Topology.TopologyScan.Visit` | workflow/topology.go:133-141 | A visit leaves all it reaches finished or behind a back edge, and terminates on every graph |
| `Topology.TopologyScan.VisitEdge` | workflow/topology.go:143-151 | An edge to a node still being visited becomes a back edge, and closes a cycle |
| `Topology.FindTopologyBackEdges` | workflow/topology.go:127-131 | The scan leaves exactly the nodes reachable from the entry; all other edges among them lead to nodes left earlier; every back edge lies on a cycle; every edge that leads back to the entry is one |
| `Topology.EveryCycleHasABackEdge` | workflow/topology.go:127-151 | Every cycle reachable from the entry contains a back edge |
| `Topology.BackEdgesIffCycle` | workflow/topology.go:127-151 | There are back edges exactly when a cycle is reachable |
| `Topology.EpochsAdvance` | workflow/topology.go:153-159 | Along a chain the correlation keeps its identity and its epoch never goes back, and stays the same exactly while no back edge is taken |
| `Topology.NoNodeTwiceInAnEpoch` | workflow/topology.go:153-159 | Within one correlation epoch no chain comes back to a node |
| `Joins.ClosingKeeps` | workflow/join_expectation.go:30-66 | Announcing what joins may expect of an activation keeps a witness for every join that fired |
| `Joins.UnselectedCloses` | workflow/join_expectation.go:54-66 | Closing the expectations of an activation that is not routed never fails |
| `Joins.ReadyIsNew` | workflow/join_expectation.go:68-98 | A join that is ready has never fired before for its correlation, although its bucket was deleted and created again |
| `Joins.EveryoneAnnounced` | workflow/workflow.go:3268-3279 | A ready join has heard of exactly the activations that feed it |
| `Joins.MaterializeKeeps` | workflow/workflow.go:3239-3252 | Firing a join keeps the joins sound, with a new witness |
| `Joins.RouteKeeps` | workflow/workflow.go:2565-2610 | Routing an activation once keeps the joins sound |
| `Deliveries.RouteSchedules` | workflow/workflow.go:2565-2654 | Routing puts exactly the branches the dispatch asks for at the end of the queue, in order, with their inputs, branch numbers and correlations; a stop puts none |
| `Deliveries.RouteContributes` | workflow/workflow.go:2565-2654 | Routing adds the output to each join as often as it is delivered there, and nothing to any other |
| `JoinLaws.RouteExpects` | workflow/join_expectation.go:30-66 | Routing tells each join to expect just as much as it adds to it, and what a stopping dispatch withholds |
| `JoinLaws.JoinGetsWhatWasSent` | workflow/workflow.go:3208-3279 | When a join is ready, its contributions from a node are the outputs of that node's activations that were routed and feed it, once per delivery and in the order of routing; the others that feed it announced none |
| `JoinLaws.StoppedJoinNeverFires` | workflow/workflow.go:2572-2577 | A join an activation selected in a dispatch that stops never becomes ready: it waits for what it will not get |
| `Epochs.JoinTargetsRunOnce` | workflow/workflow.go:3213-3252 | Over a whole run a join target has at most one activation for each correlation, also if it is the entry |
| `JoinWaits.ReadyIffComplete` | workflow/workflow.go:3268-3279 | The scheduler fires exactly the joins that have a contribution, have heard from every activation that feeds them, and have all they were told to expect; a predecessor without an activation keeps none from firing |
| `JoinWaits.EveryStateIsHeard` | workflow/join_expectation.go:30-66 | In every state of a run all that is over has announced to every join it feeds that has not fired |
| `JoinWaits.LeftIncompleteIff` | workflow/join_expectation.go:54-98 | When everything of a run is over, a join that has got something is left incomplete exactly if it had fired before it got that, or if a dispatch that stopped had selected it |
| `LateContribution.LateContributionIsLost` | workflow/workflow.go:3213-3279 | It happens that it fired before: the entry feeds two joins of which one feeds the other; the other fires at once, and what it is sent afterwards is left |
| `LateContribution.OrderDecides` | workflow/workflow.go:3226-3237 | In that state both joins are ready, and which of them the map is walked to first decides: if the other one fires first, the one it feeds is not ready any more and waits for it |
| `Announcements.CloseTells` | workflow/join_expectation.go:30-66 | Afterwards no join the activation could have fed waits for it |
| `Announcements.RouteStillTold` | workflow/workflow.go:2565-2610 | Routing takes back nothing joins were told |
| `Announcements.FiringStillTold` | workflow/workflow.go:3213-3252 | Firing a join takes back nothing other joins were told |
| `Settle.FindSuccesses` | workflow/settle.go:291-322 | Whatever order the outcomes are visited in, the successes come in branch order for all, and by completion and branch index for any and quorum |
| `Settle.InsertByCompletion` | workflow/settle.go:291-312 | Insertion keeps the order and adds exactly the one branch |
| `Settle.CertainIffEnough` | workflow/settle.go:234-270 | For any and quorum, success is certain exactly when enough branches have succeeded |
| `Settle.NeverIffTooFew` | workflow/settle.go:234-255 | It is out of reach exactly when the set is closed and even all outstanding branches would not do |
| `Settle.CertainIffWhole` | workflow/settle.go:272-289 | For all, success is certain exactly when the set is closed, complete and without failure |
| `Settle.DecideIsExact` | workflow/settle.go:234-289 | A set is reported a success exactly if every way its outstanding branches may turn out satisfies the policy, a failure exactly if none does, and open otherwise; the one exception, an error, is a closed set with fewer branches than its quorum |
| `Settle.SelectsTheEarliest` | workflow/settle.go:234-312 | Any and quorum select as many of the earliest completions as the policy asks for |
| `Settle.SelectionStandsIff` | workflow/settle.go:234-312 | A success stays one whatever else comes in, and for the same branches exactly if no success that comes in later completed before one of them |
| `Settle.LaterOutcomesChangeNothing` | workflow/settle.go:234-312 | Outcomes that come later never change such a selection, whether the set is open or closed |
| `Completions.EveryStateIsNumbered` | workflow/scheduler.go:168-193 | Over a whole run no two outcomes have the same completion number, and none has one beyond the counter: batches and cancellations draw numbers of their own, over crashes and resumes too |
| `Coordinator.BatchCoordinator.constructor` | workflow/scheduler.go:251-271 | One group for each set the batch has branches of, knowing its policy and present successes |
| `Coordinator.BatchCoordinator.Observe` | workflow/scheduler.go:277-307 | Counts a success and stops the group once there are enough; a failure stops a group that needs all, a failed standalone item everybody; interrupts and cancellations stop nobody |
| `Coordinator.StopsWhenCertain` | workflow/scheduler.go:277-290 | The branches of an any or quorum set are told to stop exactly when one succeeded and success has become certain |
| `Coordinator.StopsWhenHopeless` | workflow/scheduler.go:292-307 | The branches of a set that needs all are told to stop only when success is out of reach |
| `Coordinator.StoppedIsDecided` | workflow/scheduler.go:168-193 | Whatever ends after that, the set stays a success; and it is for the same branches exactly if none that is heard of later had completed before one of them |
| `Coordinator.Overtaken` | workflow/scheduler.go:168-193 | It happens that it is not: a branch that drew the smaller completion number is heard of after the set was told to stop, and is selected instead |
| `Conservation.EnqueueKeepsQueue` | workflow/workflow.go:3301-3316 | Scheduling keeps identifiers unique and tracked, and scheduled equal to completed plus queued for each node |
| `Conservation.TakingKeepsQueue` | workflow/workflow.go:3352-3358 | Committing an item keeps identifiers, tracking and counters sound |
| `Conservation.RequeueKeepsQueue` | workflow/activation.go:57-76 | Retrying an item, with its new input at the end of the queue, keeps them sound |
| `Results.EveryStateIsRecorded` | workflow/settle.go:136-162 | In every state of a run the record of an activation, and the outcome of a branch, hold result, cause, completion number and phase of the commit that ended it, errors up to being kept as text; what no commit ended is pending or was canceled |
| `Results.OutcomesAreResults` | workflow/settle.go:136-162 | The outcome of a branch agrees with the record of its activation |
| `Results.SentIsWhatEnded` | workflow/settle.go:438-461 | Over a whole run, what a routed activation or released branch sends to its successors and joins is the output of the commit that ended it |
| `Results.StartIsNewest` | workflow/activation.go:78-110 | A start counts one more attempt, with a version larger than that of any activation of the node |
| `RoutingSafety.RouteBuilds` | workflow/workflow.go:2565-2654 | Routing adds exactly the branches and iterators the dispatch asks for, and leaves all activations and sets there were as they were |
| `RoutingSafety.RouteAppends` | workflow/workflow.go:2565-2654 | What was queued stays in front, in order |
| `OpenSets.RouteOpensSet` | workflow/settle.go:64-108 | The set has the dispatch's policy, expects one branch for each delivery to a node, and waits for one iterator for each iterator delivery |
| `OpenSets.RouteOpens` | workflow/settle.go:64-108 | A set that routing opens has everything still to come |
| `OpenSets.UnstartedIsUndetermined` | workflow/settle.go:234-289 | Neither success nor failure of such a set is certain |
| `OpenSets.GrowingStaysUndetermined` | workflow/iter_source.go:142-176 | Pulling one more item for an open set leaves both open |
| `SchedulingLaws.PerformConserves` | workflow/workflow.go:2098-2187 | Every operation of the scheduler keeps queue, sets, iterators, routing and joins sound |
| `SchedulingRuns.EveryStateIsConserved` | workflow/workflow.go:2098-2187 | Queue, sets, iterators, routing and joins are sound in every state of a run, over all crashes and resumes from any checkpoint's payload |
| `SchedulingRuns.ResumedPhase` | workflow/activation.go:158-175 | After a resume nothing is running, an activation is interrupted exactly if it was and nobody has answered, and what was over is over as before |
| `SchedulingRuns.NothingGetsLost` | workflow/workflow.go:3301-3358 | For each node, what was ever scheduled is completed or queued; queued items are unique and tracked |
| `SchedulingRuns.BranchesSplit` | workflow/settle.go:136-162 | The branches of a set split into those with an outcome and those queued, and are as many as the set expects |
| `SchedulingRuns.RoutedOnce` | workflow/settle.go:438-461 | An activation is routed at most once over a whole run, and exactly those are that completed and, as a branch, were selected and committed |
| `SchedulingRuns.JoinsFireOnce` | workflow/workflow.go:3208-3279 | Over a whole run a join fires at most once for a correlation |
| `Release.CancelWorks` | workflow/settle.go:374-393 | Cancelling the next unselected branch works exactly if it has not been started, and leaves unrelated items in order |
| `Release.SupersedeWorks` | workflow/settle.go:395-420 | Superseding changes one outcome and nothing else |
| `Release.CloseWorks` | workflow/settle.go:422-436 | Closing what joins expect of an unselected branch never fails, and they do not wait for it any more |
| `Release.ReleaseWorks` | workflow/settle.go:438-461 | Releasing a selected branch marks it committed and routes it, once; other sets stay |
| `Release.ReleaseCompletes` | workflow/settle.go:324-353 | A release that went through its steps is complete: every branch done, the selected routed and committed, the others not |
| `Release.FailureCompletes` | workflow/settle.go:463-480 | Failing a set that went through its steps is complete: nothing of it is queued, routed or left completed |
| `Release.InterruptedInTheSameBatch` | workflow/activation.go:125-136 | It happens: a branch interrupted in the batch that decides its set can be neither cancelled nor waited for, and the release fails on it |
| `BatchFacts.BatchShrinks` | workflow/scheduler.go:21-52 | Committing the first item leaves the rest of the batch in front of the queue and running: an item is never refused because of the queue |
| `BatchFacts.ChosenSplit` | workflow/scheduler.go:96-114 | Reordering an interrupted batch moves activations only |
| `BatchFacts.ReorderWorks` | workflow/scheduler.go:96-114 | After the reordering the batch is still what the queue starts with, the interrupted items last |
| `BatchFacts.CommitLeavesOthers` | workflow/scheduler.go:116-132 | Committing an item concerns its own set and new ones |
| `BatchFacts.NothingLeftIsWoundUp` | workflow/workflow.go:1518-1528 | With nothing queued and no iterator open, a run whose sets are settled or open has them all settled and every activation accounted for: done, and routed if it completed, or superseded |
| `Batches.BatchScheduler.Begin` | workflow/workflow.go:1430-1449 | A new run has its entry queued with the run's input, and nothing else |
| `Batches.BatchScheduler.constructor` | workflow/workflow.go:1853-1890 | Goes on from any checkpoint saved in a run, with its step and resumed activations, as one more execution of that run |
| `Batches.BatchScheduler.Do` | workflow/scheduler.go:21-52 | Each change of the scheduler's state is one of the operations, performed where the scheduler may, so the laws about runs hold of the loop; what looks at no join makes none ready |
| `Batches.BatchScheduler.MaterializeReadyJoins` | workflow/workflow.go:3213-3237 | Fires ready joins, one at a time and in any order, until none is ready or one has no input, each queued as one activation with an input made of exactly the contributions its bucket held; if it goes through, no join is left that has a contribution and all it waits for; nothing else changes |
| `Batches.BatchScheduler.CommitBatchItem` | workflow/scheduler.go:116-132 | Puts an item to be retried at the end of the queue with its new input; records of a branch exactly its result, cause and completion number; routes any other item and fires joins; saved with the next step; an item at the head and running is never refused |
| `Batches.BatchScheduler.CommitBatchItems` | workflow/scheduler.go:21-52 | All items are committed in queue order, each saved as ended under its own step, and the queue always starts with what is left |
| `Batches.BatchScheduler.NextBatch` | workflow/scheduler.go:139-150 | A batch is the front of the queue, as large as parallelism and steps left allow and never empty; refused exactly once the steps are used up |
| `Batches.BatchScheduler.EmitBatchStarts` | workflow/scheduler.go:152-166 | Starts exactly the batch, with an event each |
| `Batches.BatchScheduler.ExecuteBatch` | workflow/scheduler.go:168-193 | Every item ends as its node did, under a completion number of its own that is larger than all earlier ones |
| `Batches.BatchScheduler.CancelQueuedBranches` | workflow/settle.go:355-372 | If events are accepted it gets through exactly when no branch to be cancelled has been started; whatever is saved on the way can be resumed from |
| `Batches.BatchScheduler.SupersedeBranches` | workflow/settle.go:395-412 | Afterwards no unselected branch is left completed |
| `Batches.BatchScheduler.CloseUnselectedBranchExpectations` | workflow/settle.go:422-436 | Afterwards no join waits for an unselected branch |
| `Batches.BatchScheduler.ReleaseBranches` | workflow/settle.go:438-461 | Releases the selected branches in order, those not released before |
| `Batches.BatchScheduler.ReleaseSourceSet` | workflow/settle.go:324-353 | None of the set's branches is queued, every one is done, the selected ones are routed and committed, the other completed ones superseded, joins wait for none of them, unrelated items are queued in order and in front; also when releasing again after a crash at any saved event |
| `Batches.BatchScheduler.FailSourceSet` | workflow/settle.go:463-480 | All branches are cancelled or superseded, none routed, and no join waits for any |
| `Batches.BatchScheduler.SettleSourceSet` | workflow/settle.go:210-232 | A set is left alone while its outcome is open, released when success is certain, failed when it is out of reach; other sets stay |
| `Batches.BatchScheduler.SettleSourceSets` | workflow/settle.go:190-197 | If it goes through, the sets are settled or still open |
| `Batches.BatchScheduler.ReconcileSourceSets` | workflow/settle.go:199-208 | After a resume, all sets a crash left unsettled are dealt with |
| `Batches.BatchScheduler.AdvanceBatch` | workflow/scheduler.go:21-52 | A batch that goes through raises the step by its size, leaves none of its items running and its sets settled or open |
| `Batches.BatchScheduler.SourceSetsOf` | workflow/scheduler.go:21-52 | The sets of a batch, each once |
| `Batches.BatchScheduler.HandleBatchInterrupts` | workflow/scheduler.go:65-94 | The other items are committed first and none is refused for being out of order; what is left is interrupted |
| `Batches.BatchScheduler.InterruptBatch` | workflow/workflow.go:2259-2282 | Marks exactly the interrupted items |
| `Batches.BatchScheduler.PullIterSource` | workflow/iter_source.go:142-251 | Schedules the next item, saving the cursor captured behind it or else the one there was, or closes the iterator and settles its set, or fails the set with the cause: at once if the item is of the wrong type or the iterator failed, after scheduling it if its cursor cannot be captured |
| `Batches.BatchScheduler.CloseIterSource` | workflow/iter_source.go:204-221 | Closes an exhausted iterator, saves that, and leaves its set settled or open |
| `Batches.BatchScheduler.FillIterQueue` | workflow/iter_source.go:132-140 | Pulls until there is a full batch or no open iterator; terminates |
| `Batches.BatchScheduler.Run` | workflow/workflow.go:1513-1532 | The loop halts; over a whole run, however often it is resumed, at most maxSteps items are committed; when it runs to the end nothing is left undone, and every join left with a contribution had fired before it got that or waits for a dispatch that stopped |
| `BatchTurns.RunGoesOn` | workflow/workflow.go:1853-1890 | A run goes on from any checkpoint: what is restored is a sound state of the same run, and a join that is ready belongs to a set on its way out |
| `BatchTurns.WoundUpJoins` | workflow/workflow.go:1518-1532 | What joins can be left with once a run has wound up |
| `Codec.RestoreActivations` | workflow/activation_checkpoint.go:57-69 | Restored activations are the recorded ones and each node's version is the largest among its records |
| `Codec.VersionsRoundTrip` | workflow/activation_checkpoint.go:57-69 | Restored node versions are those there were |
| `Codec.RoundTrip` | workflow/workflow.go:3483-3645 | Restoring an encoded state gives back queue, phases, attempts, sets, buckets, correlations, iterators and versions; only errors come back as their text, and outputs of failed activations not at all |
| `Codec.ReencodesTheSame` | workflow/workflow.go:3483-3645 | Encoding the restored state gives the same payload again |
| `Codec.ExactIffPlain` | workflow/settle_checkpoint.go:55-68 | Nothing at all is lost exactly when no recorded error is empty or reports a cancellation, and no failed activation had an output |
| `Codec.PerformKeepsKept` | workflow/activation.go:78-110 | Every operation keeps what the codec relies on, versions above all |
| `SchedulingRuns.CheckpointsRestore` | workflow/workflow.go:3605-3645 | Every state a run reaches survives being saved and restored, and is then saved as the same payload |
| `Codec.RestoredIsConserved` | workflow/workflow.go:3605-3645 | A run restored from its checkpoint is as sound as it was |
| `IterFeed.LiveIterator.Skip` | workflow/iter_source.go:382-393 | Skips exactly that many items, if there are as many |
| `IterFeed.IterSourceFeed.constructor` | workflow/iter_source.go:318-357 | Resumes at the first item not scheduled yet, by cursor or by skipping, and never fails on a source that yields the same again |
| `IterFeed.IterSourceFeed.PullItem` | workflow/iter_source.go:142-176 | Schedules the next item and counts it, or closes the source |
| `IterFeed.ScheduledIsPrefix` | workflow/iter_source.go:142-393 | Over all crashes and resumes the items durably scheduled are a prefix of the source, none skipped, none twice |
| `IterFeed.ScheduledOnlyGrows` | workflow/iter_source.go:142-393 | What was scheduled once stays: later it is a longer prefix of the same source |
| `IterRuns.PullingSchedules` | workflow/iter_source.go:142-176 | Pulling adds one activation at the end of the queue, with the item as its input and the set's next branch number; the cursor is the one captured behind the item, or the one before if none was |
| `IterRuns.RouteOpensIters` | workflow/workflow.go:2565-2654 | Each iterator delivery opens one iterator, for its target, with the number of its delivery and the replay it asks for, nothing pulled yet |
| `IterRuns.CursorStands` | workflow/iter_source.go:142-202 | Over a whole run an open replay iterator that has yielded something has a cursor, and it stands for the number of items scheduled, where the live iterator is |
| `IterRuns.IteratorSchedulesPrefix` | workflow/iter_source.go:142-393 | Over a whole run of the scheduler, with crashes and resumes from any checkpoint, what is scheduled for an iterator is exactly the first items of its source, as many as the state counts; where an iterator goes on after a resume follows from how it is bound: by its cursor, or by skipping what was pulled |
| `HistorySearch.NextLimit` | workflow/control.go:340-365 | Every page asked for is of positive size, and just large enough to notice that the limit is exceeded |
| `HistorySearch.RunLogSearch.Accept` | workflow/control.go:367-387 | Answers with whatever comes first in the page: a match, a record out of place, or the limit |
| `HistorySearch.FindRunLogRecord` | workflow/control.go:340-365 | Terminates on every log; on a journal that may grow meanwhile it answers what one scan does: the first match among the first 10,000 records, none, or the limit error |
| `HistorySearch.CheckpointSearch.Accept` | workflow/control.go:511-531 | Remembers the last stable version of the page; refuses the first version out of place or beyond the limit |
| `HistorySearch.CheckpointAtSequence` | workflow/control.go:486-509 | Terminates on every history; answers with the last stable version at a sequence, as one scan does, or the limit error |
| `HistorySearch.VersionsAreASuffix` | workflow/checkpoint_store.go:199-226 | The in-memory store lists versions as the searches suppose |
| `HistorySearch.JournalIsListed` | runlog/runlog.go:204-236 | The in-memory log lists a journal as the searches suppose |
| `SessionRuns.ListSessionRuns` | workflow/runlog.go:56-106 | One pass over interleaved records gives each run, in the order of appearance, exactly the summary of its own records, and fails exactly if some run cannot be summarised |
| `SessionRuns.SummarizedIff` | workflow/runlog.go:108-175 | A run can be summarised exactly if its records agree on what it is a run of and its lifecycle events fit; its status is what the last of them left |
| `SessionRuns.ListedIff` | workflow/runlog.go:108-175 | A journal the protocol wrote is summarised exactly if the start of its run was made durable and no later attempt reported it again |
| `SessionRuns.NaturalIsListedIff` | workflow/runlog.go:108-175 | For a run that is neither a retry nor a jump that is: exactly if its start was made durable |
| `SessionRuns.ResumedUnstarted` | workflow/workflow.go:2045-2057 | It happens that it is not: the process stopped right after creating the run, and the run was resumed |
| `SessionRuns.ResumedRetry` | workflow/workflow.go:2045-2057 | It happens to every retried or jumped run that is resumed: the new attempt reports the retry once more |
| `SessionRuns.SummaryAgrees` | workflow/runlog.go:108-175 | If a journal the protocol wrote is summarised, the summary agrees with the checkpoint: the same outcome if ended, interrupted if interrupted |

## Left out

- Execution.WorkflowExecution.Restore: like Execution.Resume it assumes that nobody else writes to the run between its calls; interleavings are the business of the step machine, of which each of its methods is shown to be a run of steps.
- Execution.WorkflowExecution.EmitEvent: observed and running events are never terminal or interrupt events, as the runtime reserves those types; emissions by goroutines that outlive a batch or the run are not modelled.
- StoreSafety.LostStaysLost: supposes that only running records name an owner, which all writers of the runtime keep to.
- Settle.LaterOutcomesChangeNothing: supposes that later outcomes have larger completion numbers; they are drawn from the run's completion counter.
- Coordinator.StopsWhenCertain: concerns batches in which no standalone item fails, since such a failure stops everybody; how a node reacts to being told to stop is arbitrary.
- Batches.BatchScheduler.Run: the scheduler's state is a value that the object replaces, so aliasing of maps and slices is not captured; a failed standalone item stops the run without the failed record and the event handleNodeError makes of it.
- Batches.BatchScheduler.MaterializeReadyJoins: ready joins fire in any order, as the source ranges over a map; what a join makes of its contributions is arbitrary.
- Batches.BatchScheduler.FillIterQueue: which open iterator is pulled next is arbitrary.
- Codec.RoundTrip: payload lists are in the order of numeric identifiers where the source sorts strings, and join buckets and correlations stay maps; gob, JSON, type registration and hashes are left out.
- IterRuns.IteratorSchedulesPrefix: like IterFeed.ScheduledIsPrefix it supposes of the user's code that the source yields the same items each time, that a replay source captures a cursor at each item, and that a cursor restores the position it was captured at.
- IterFeed.ScheduledIsPrefix: the source yields the same items each time and a cursor stands for the position it was captured at; an iterator that yields others is outside the property.
- Contexts, goroutines, tickers, timeouts and heartbeats appear as arbitrary steps, clock readings and failures.
- Node bodies, routes, guards, middleware, hooks, plugins and event sinks are callbacks with arbitrary results.
- Events emitted before a run's checkpoint exists use the unfenced append and are left out.
- Retry, JumpTo and Fork replace queues and counters; only their searches through history are modelled.
- Workflow context values and the check that a fan-out branch does not update them are left out.
- Collecting and flushing the outputs of exit nodes is left out.
- Snapshots of a run (the projection of its timeline and checkpoint history) are left out: their paging is that of the modelled searches.
- The error a run ends with (which failure of a set is reported, and how it is wrapped) is left out; that it ends, and what it leaves behind, is not.
- Identifier generation, build options, option merging and validation of a workflow's definition are left out.
