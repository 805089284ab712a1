/** The durable run protocol as a step machine: what one owner of a run does
    between two store calls, and the system of all owners a run ever had
    (workflow/workflow.go). Owners interleave freely, fail, lose their lease,
    crash and are taken over at any point. */
module RunProtocol {
  import opened Options
  import opened Runlog
  import opened CheckpointStore
  import opened InterruptResolution

  const RECONCILE_PAGE_SIZE := 256

  // What stays fixed over all executions of one run.
  datatype RunConfig = RunConfig(
    identity: Identity,
    parentRunID: string,
    executionEpoch: int,
    controlOrigin: string,
    leaseDuration: int)

  ghost predicate ValidRun(run: RunConfig) {
    ValidIdentity(run.identity) && run.executionEpoch > 0 && run.controlOrigin != "" && run.leaseDuration > 0
  }

  // ----- stamping events -----

  /** Fills in the runtime identity; fields already set are kept. */
  function Stamp(run: RunConfig, event: Event, sequence: int, now: Time): Event {
    var runID := run.identity.runID;
    event.(
      activationID := if event.runID == "" && event.activationID != "" then runID + "/" + event.activationID
        else event.activationID,
      attemptID := if event.runID == "" && event.attemptID != "" then runID + "/" + event.attemptID
        else event.attemptID,
      definitionID := run.identity.workflowName,
      definitionVersion := run.identity.topologyVersion,
      sessionID := run.identity.sessionID,
      runID := runID,
      parentRunID := run.parentRunID,
      executionEpoch := run.executionEpoch,
      sourceRevisionID := run.identity.sourceRevisionID,
      sequence := sequence,
      revisionID := if event.revisionID == NoRevision then Revision(runID, sequence) else event.revisionID,
      timestamp := if event.timestamp == 0 then now else event.timestamp,
      source := if event.source == "" then "workflow" else event.source,
      origin := if event.origin != "" then event.origin else if run.controlOrigin != "" then run.controlOrigin
        else "runtime")
  }

  /** An event a node, hook or the runtime hands over: no runtime identity yet. */
  predicate Fresh(event: Event) {
    event.runID == "" && event.revisionID == NoRevision && event.eventType != Untyped
  }

  predicate Stamped(run: RunConfig, event: Event) {
    && event.definitionID == run.identity.workflowName
    && event.definitionVersion == run.identity.topologyVersion
    && event.sessionID == run.identity.sessionID
    && event.runID == run.identity.runID
    && event.parentRunID == run.parentRunID
    && event.executionEpoch == run.executionEpoch
    && event.sourceRevisionID == run.identity.sourceRevisionID
    && event.revisionID == Revision(run.identity.runID, event.sequence)
    && event.timestamp != 0 && event.source != "" && event.origin != ""
    && event.eventType != Untyped
  }

  function Entry(run: RunConfig, event: Event): Record {
    AssociatedRecord(event, run.identity.sourceRunID, run.identity.sourceEventSeq)
  }

  /** The identity check applied to journal records during recovery. */
  predicate ValidJournalRecord(run: RunConfig, record: Record, sequence: int) {
    && record.sequence == sequence
    && record.sessionID == run.identity.sessionID && record.runID == run.identity.runID
    && record.definitionID == run.identity.workflowName && record.definitionVersion == run.identity.topologyVersion
    && record.parentRunID == run.parentRunID && record.executionEpoch == run.executionEpoch
    && record.sourceRunID == run.identity.sourceRunID && record.sourceEventSeq == run.identity.sourceEventSeq
    && record.sourceRevisionID == run.identity.sourceRevisionID
    && record.revisionID != NoRevision && record.eventType != Untyped && record.source != "" && record.timestamp != 0
  }

  // ----- interrupt batches -----

  predicate InterruptType(eventType: EventType) {
    eventType == GuardInterrupted || eventType == WorkflowInterrupted
  }

  const BLANK_EVENT :=
    Event("", "", "", "", "", "", "", NoRevision, "", 0, 0, "", 0, Untyped, "", "", 0, "", NoPayload, "")

  function GuardEvent(request: InterruptRequest): Event {
    BLANK_EVENT.(eventType := GuardInterrupted, source := "workflow.guard", summary := request.subject,
      payload := InterruptBody(request))
  }

  function WorkflowInterruptEvent(first: InterruptRequest): Event {
    BLANK_EVENT.(eventType := WorkflowInterrupted, source := "workflow", summary := first.subject)
  }

  /** One event per request and a closing one, numbered on from `sequence`. The closing
      one reports the request the first interrupt carries besides its list of requests. */
  function BatchEvents(run: RunConfig, waits: seq<PendingInterrupt>, first: InterruptRequest, sequence: int,
                       now: Time): (events: seq<Event>)
    ensures |events| == |waits| + 1 && events[|waits|].summary == first.subject
  {
    GuardEvents(run, waits, sequence, now) + [ClosingEvent(run, waits, first, sequence, now)]
  }

  function ClosingEvent(run: RunConfig, waits: seq<PendingInterrupt>, first: InterruptRequest, sequence: int,
                        now: Time): (event: Event)
    ensures event.summary == first.subject
  {
    Stamp(run, WorkflowInterruptEvent(first), sequence + |waits| + 1, now)
  }

  lemma BatchEventsIs(run: RunConfig, waits: seq<PendingInterrupt>, first: InterruptRequest, sequence: int, now: Time)
    ensures BatchEvents(run, waits, first, sequence, now)
         == GuardEvents(run, waits, sequence, now)
           + [Stamp(run, WorkflowInterruptEvent(first), sequence + |waits| + 1, now)]
  {
  }

  function GuardEvents(run: RunConfig, waits: seq<PendingInterrupt>, sequence: int, now: Time): (events: seq<Event>)
    ensures |events| == |waits|
  {
    seq(|waits|, i requires 0 <= i < |waits| => Stamp(run, GuardEvent(waits[i].request), sequence + i + 1, now))
  }

  lemma NoGuards(run: RunConfig, sequence: int, now: Time)
    ensures GuardEvents(run, [], sequence, now) == []
  {
  }

  lemma OneMoreGuard(run: RunConfig, waits: seq<PendingInterrupt>, sequence: int, now: Time, index: nat)
    requires index < |waits|
    ensures GuardEvents(run, waits[..index + 1], sequence, now)
         == GuardEvents(run, waits[..index], sequence, now)
           + [Stamp(run, GuardEvent(waits[index].request), sequence + index + 1, now)]
  {
    hide Stamp, GuardEvent;
  }

  predicate InterruptIdentityMatches(run: RunConfig, event: Event) {
    && event.runID == run.identity.runID && event.sessionID == run.identity.sessionID
    && event.definitionID == run.identity.workflowName && event.definitionVersion == run.identity.topologyVersion
    && event.executionEpoch == run.executionEpoch && event.sourceRevisionID == run.identity.sourceRevisionID
    && event.revisionID == Revision(run.identity.runID, event.sequence)
    && event.origin == run.controlOrigin && event.timestamp != 0
  }

  predicate RequestMatches(event: Event, request: InterruptRequest) {
    event.source == "workflow.guard" && event.summary == request.subject && event.payload == InterruptBody(request)
  }

  /** The events of a batch are the ones its waits call for, whatever the closing one
      reports. */
  predicate BatchShaped(run: RunConfig, waits: seq<PendingInterrupt>, events: seq<Event>) {
    && waits != [] && |events| == |waits| + 1
    && (forall i :: 0 <= i < |events| ==>
          && InterruptIdentityMatches(run, events[i])
          && events[i].sequence == events[0].sequence + i
          && events[i].eventType == (if i == |waits| then WorkflowInterrupted else GuardInterrupted))
    && (forall i :: 0 <= i < |waits| ==> RequestMatches(events[i], waits[i].request))
    && events[|waits|].source == "workflow" && events[|waits|].payload == NoPayload
  }

  /** The closing event reports the first of the waits. */
  predicate ReportsFirst(waits: seq<PendingInterrupt>, events: seq<Event>) {
    0 < |waits| < |events| ==> events[|waits|].summary == waits[0].request.subject
  }

  predicate BatchMatches(run: RunConfig, waits: seq<PendingInterrupt>, events: seq<Event>) {
    BatchShaped(run, waits, events) && ReportsFirst(waits, events)
  }

  /** validateCheckpointInterruptProgress: what a resume demands of a checkpoint. */
  predicate ValidInterruptProgress(run: RunConfig, record: Checkpoint) {
    var payload := record.payload;
    && ProgressConsistent(run, record)
    && (payload.interruptProgress.Some? ==>
          ReportsFirst(payload.pendingInterrupts, payload.interruptProgress.value.events))
  }

  /** All of that, except for what a batch's closing event reports. */
  predicate ProgressConsistent(run: RunConfig, record: Checkpoint) {
    var payload := record.payload;
    match payload.interruptProgress
    case None =>
      && !(payload.pendingEvent.Some? && InterruptType(payload.pendingEvent.value.eventType))
      && !(record.status == Running && payload.pendingInterrupts != [])
    case Some(progress) =>
      && record.status == Running
      && 0 <= progress.next <= |progress.events|
      && BatchShaped(run, payload.pendingInterrupts, progress.events)
      && payload.eventCursor == record.confirmedSequence == progress.events[0].sequence + progress.next - 1
      && (match payload.pendingEvent
          case None => progress.next != 0 && record.pendingSequence == 0
          case Some(event) =>
            && progress.next < |progress.events|
            && record.pendingSequence == event.sequence
            && event == progress.events[progress.next])
  }

  // ----- one owner -----

  // Why an event is being committed.
  datatype Purpose =
    | Observe                          // emit: append and deliver only
    | Load                             // the same for what restore reports
    | Advance                          // commitRunningEvent
    | Begin                            // commitRunningEvent in startAttempt
    | Conclude(outcome: Outcome)       // commitTerminalEvent
    | Batch                            // commitInterruptBatchEvent
    | Replay(term: Option<Outcome>)    // replayPending

  // Where an owner stands between two store calls.
  datatype Control =
    | Starting    // a new run, nothing emitted yet
    | Loading     // restored up to its report
    | Resuming    // restored
    | Ready
    | Journaling(event: Event, purpose: Purpose)
    | Delivering(event: Event, purpose: Purpose)
    | Confirming(event: Event, purpose: Purpose)
    | Reconciling
    | ReplayingPage(page: seq<Record>, full: bool)
    | Interrupting
    | Stuck       // an interrupt batch failed part way
    | Suspended   // the run was left interrupted
    | Releasing   // a sink or the log failed
    | Stopped

  datatype Owner = Owner(
    checkpoint: Checkpoint,
    sequence: int,
    cursor: int,
    interrupts: seq<PendingInterrupt>,
    progress: Option<InterruptProgress>,
    replayStatus: ReplayStatus,
    control: Control,
    start: int,          // the cursor it began with
    offers: seq<int>)    // the sequences it offered to the sinks

  // What the surroundings contribute to a step: the clock, whether the store
  // call or sink fails for reasons of its own, and the scheduler state to save.
  datatype Env = Env(now: Time, fails: bool, work: Work)

  datatype Moved = Moved(store: RunStore, owner: Owner)

  function Attempt(store: RunStore, env: Env, written: Written): Written {
    if env.fails then Refused(store, ContextDone) else written
  }

  function SequenceOf(event: Option<Event>): int {
    if event.Some? then event.value.sequence else 0
  }

  /** The record saveCheckpoint writes. */
  function SaveRecord(run: RunConfig, owner: Owner, pending: Option<Event>, term: Option<Outcome>,
                      replayStatus: ReplayStatus, env: Env): Checkpoint {
    var record := owner.checkpoint;
    record.(
      payload := record.payload.(
        work := env.work, ownerID := record.ownerID, claimSequence := record.claimSequence,
        leaseExpiresAt := env.now + LeaseOf(run), eventCursor := owner.cursor, pendingEvent := pending,
        pendingTerm := term,
        pendingInterrupts := owner.interrupts, interruptProgress := owner.progress),
      status := Running,
      leaseExpiresAt := env.now + LeaseOf(run),
      leaseDuration := run.leaseDuration,
      confirmedSequence := owner.cursor,
      pendingSequence := SequenceOf(pending),
      replayStatus := replayStatus,
      updatedAt := env.now)
  }

  function LeaseOf(run: RunConfig): Time {
    if run.leaseDuration > 0 then run.leaseDuration else 0
  }

  /** The record that ends ownership: finishCheckpoint and interruptCheckpoint. */
  function ClosingRecord(owner: Owner, status: Status, progress: Option<InterruptProgress>, env: Env): Checkpoint {
    var record := owner.checkpoint;
    record.(
      payload := record.payload.(
        work := env.work, ownerID := "", leaseExpiresAt := 0, eventCursor := owner.cursor,
        pendingEvent := None, pendingTerm := None,
        pendingInterrupts := owner.interrupts, interruptProgress := progress),
      status := status, ownerID := "", leaseExpiresAt := 0, leaseDuration := 0,
      confirmedSequence := owner.cursor, pendingSequence := 0,
      replayStatus := owner.replayStatus, updatedAt := env.now)
  }

  /** releaseCheckpointLease: the last saved payload, owned by nobody. */
  function ReleaseRecord(owner: Owner, env: Env): Checkpoint {
    var record := owner.checkpoint;
    record.(payload := record.payload.(ownerID := "", leaseExpiresAt := 0),
            ownerID := "", leaseExpiresAt := 0, leaseDuration := 0, updatedAt := env.now)
  }

  /** Writes a record; on success the owner keeps it and goes on, otherwise it
      falls back with the record it had. */
  function Save(store: RunStore, owner: Owner, record: Checkpoint, env: Env, next: Control, fallback: Control): Moved {
    var written := Attempt(store, env, Stored(store, record, record.version, Terminal(record.status), env.now));
    if written.error.None? then
      Moved(written.store, owner.(checkpoint := record.(version := record.version + 1), control := next))
    else Moved(store, owner.(control := fallback))
  }

  function ReplayStatusFor(eventType: EventType): ReplayStatus {
    if eventType == WorkflowStarted then ReplaySafe else ReplayUnknown
  }

  /** What a node, a hook or the scheduler reports while the run goes on. */
  predicate RunningType(eventType: EventType) {
    eventType.Custom?
  }

  predicate StartsRun(eventType: EventType) {
    eventType == WorkflowStarted || eventType == WorkflowRetryStarted || eventType == WorkflowJumpStarted
  }

  predicate StartsAttempt(eventType: EventType) {
    StartsRun(eventType) || eventType == WorkflowResumed
  }

  /** Neither an ending nor part of an interrupt batch. */
  predicate PlainType(eventType: EventType) {
    !eventType.WorkflowEnded? && !InterruptType(eventType) && eventType != Untyped
  }

  /** What startAttempt reports: a retried or jumped run says so in each attempt. */
  function AttemptType(run: RunConfig, resumed: bool): (eventType: EventType)
    ensures StartsAttempt(eventType) && PlainType(eventType)
  {
    if run.controlOrigin == "external_retry" then WorkflowRetryStarted
    else if run.controlOrigin == "external_jump" then WorkflowJumpStarted
    else if resumed then WorkflowResumed
    else WorkflowStarted
  }

  function AttemptEvent(run: RunConfig, resumed: bool): Event {
    BLANK_EVENT.(eventType := AttemptType(run, resumed))
  }

  const LOADED_EVENT := BLANK_EVENT.(eventType := CheckpointLoaded)

  /** emitLockedWithContexts up to the fenced append. */
  function Emit(run: RunConfig, store: RunStore, owner: Owner, event: Event, purpose: Purpose, env: Env): Moved {
    EmitStamped(run, store, owner, Stamp(run, event, owner.sequence + 1, env.now), purpose, env)
  }

  function EmitStamped(run: RunConfig, store: RunStore, owner: Owner, stamped: Event, purpose: Purpose,
                       env: Env): Moved {
    var fence := Fence(owner.checkpoint.ownerID, owner.checkpoint.claimSequence);
    Emitted(store, owner, stamped, purpose, Attempt(store, env, Journaled(store, Entry(run, stamped), fence, env.now)))
  }

  /** Where an append leaves the owner: a lost lease ends it, any other refusal fails it. */
  function Emitted(store: RunStore, owner: Owner, stamped: Event, purpose: Purpose, written: Written): Moved {
    var sequence := owner.sequence + 1;
    if written.error.None? then
      Moved(written.store, owner.(sequence := sequence, control := Delivering(stamped, purpose)))
    else if written.error.value == LeaseLost then Moved(store, owner.(sequence := sequence, control := Stopped))
    else Moved(store, owner.(sequence := sequence, control := Releasing))
  }

  function Advanced(progress: Option<InterruptProgress>, event: Event, purpose: Purpose): Option<InterruptProgress> {
    match progress
    case None => None
    case Some(batch) =>
      if purpose.Batch? then Some(batch.(next := batch.next + 1))
      else if purpose.Replay? && 0 <= batch.next < |batch.events| && batch.events[batch.next].sequence == event.sequence
      then Some(batch.(next := batch.next + 1))
      else progress
  }

  datatype Action =
    | BeginAdvance(event: Event)
    | EmitObserved(event: Event)
    | BeginConclude(outcome: Outcome, event: Event)
    | BeginInterrupts(waits: seq<PendingInterrupt>, first: InterruptRequest)
    | Continue        // the next store call or delivery of whatever is under way
    | Renew
    | Crash

  /** Where a failure or a cancellation ends the run: while it works, before a resumed
      attempt starts, and also when the run has just been interrupted or failed to be. */
  predicate MayConclude(control: Control) {
    control == Ready || control == Resuming || control == Stuck || control == Suspended
  }

  function Step(run: RunConfig, store: RunStore, owner: Owner, action: Action, env: Env): Moved {
    match action
    case BeginAdvance(event) =>
      if owner.control == Ready && Fresh(event) && RunningType(event.eventType) then
        var pending := Stamp(run, event, owner.sequence + 1, env.now);
        Save(store, owner, SaveRecord(run, owner, Some(pending), None, ReplayStatusFor(event.eventType), env), env,
             Journaling(pending, Advance), Ready)
      else Moved(store, owner)
    case EmitObserved(event) =>
      if owner.control == Ready && Fresh(event) && RunningType(event.eventType)
      then Emit(run, store, owner, event, Observe, env)
      else Moved(store, owner)
    case BeginConclude(outcome, event) =>
      if MayConclude(owner.control) && Fresh(event) && event.eventType == WorkflowEnded(outcome) then
        var pending := Stamp(run, event, owner.sequence + 1, env.now);
        Save(store, owner, SaveRecord(run, owner, Some(pending), Some(outcome), owner.replayStatus, env), env,
             Journaling(pending, Conclude(outcome)), Stopped)
      else Moved(store, owner)
    case BeginInterrupts(waits, first) =>
      if owner.control == Ready && waits != [] then
        Moved(store, owner.(
          interrupts := waits,
          progress := Some(InterruptProgress(BatchEvents(run, waits, first, owner.sequence, env.now), 0)),
          control := Interrupting))
      else Moved(store, owner)
    case Continue => Proceed(run, store, owner, env)
    case Renew =>
      var lease := Lease(run.identity.runID, owner.checkpoint.ownerID, owner.checkpoint.claimSequence, env.now
        + LeaseOf(run), run.leaseDuration);
      Moved(Attempt(store, env, Renewed(store, lease, env.now)).store, owner)
    case Crash => Moved(store, owner.(control := Stopped))
  }

  function Proceed(run: RunConfig, store: RunStore, owner: Owner, env: Env): Moved {
    match owner.control
    case Starting => BeginAttempt(run, store, owner, AttemptEvent(run, false), env)
    case Loading => Emit(run, store, owner, LOADED_EVENT, Load, env)
    case Resuming => BeginAttempt(run, store, owner, AttemptEvent(run, true), env)
    case Journaling(event, purpose) => Emit(run, store, owner, event, purpose, env)
    case Delivering(event, purpose) => Moved(store, Deliver(owner, event, purpose, env))
    case Confirming(event, purpose) => Confirm(run, store, owner, event, purpose, env)
    case Reconciling => Moved(store, ListPage(run, store, owner, env))
    case ReplayingPage(page, full) => ReplayPage(run, store, owner, page, full, env)
    case Interrupting => InterruptNext(run, store, owner, env)
    case Releasing => Save(store, owner, ReleaseRecord(owner, env), env, Stopped, Stopped)
    case _ => Moved(store, owner)
  }

  function BeginAttempt(run: RunConfig, store: RunStore, owner: Owner, event: Event, env: Env): Moved {
    var pending := Stamp(run, event, owner.sequence + 1, env.now);
    Save(store, owner, SaveRecord(run, owner, Some(pending), None, ReplayStatusFor(event.eventType), env), env,
         Journaling(pending, Begin), Stopped)
  }

  /** Where an owner goes whose event was delivered. */
  function Delivered(event: Event, purpose: Purpose): Control {
    if purpose == Observe then Ready else if purpose == Load then Resuming else Confirming(event, purpose)
  }

  function Deliver(owner: Owner, event: Event, purpose: Purpose, env: Env): Owner {
    var offered := owner.(offers := owner.offers + [event.sequence]);
    if env.fails then offered.(control := Releasing)
    else offered.(cursor := owner.sequence, progress := Advanced(owner.progress, event, purpose),
                  control := Delivered(event, purpose))
  }

  function Confirm(run: RunConfig, store: RunStore, owner: Owner, event: Event, purpose: Purpose, env: Env): Moved {
    match purpose
    case Observe => Moved(store, owner)
    case Load => Moved(store, owner)
    case Advance => ConfirmAdvance(run, store, owner, event, Ready, env)
    case Begin => ConfirmAdvance(run, store, owner, event, Stopped, env)
    case Batch => Save(store, owner, SaveRecord(run, owner, None, None, owner.replayStatus, env), env,
      Interrupting, Stuck)
    case Conclude(outcome) => Save(store, owner, ClosingRecord(owner, Ended(outcome), owner.progress, env), env,
      Stopped, Stopped)
    case Replay(term) =>
      if term.Some? then
        Save(store, owner, ClosingRecord(owner, Ended(term.value), owner.progress, env), env, Stopped, Stopped)
      else Save(store, owner, SaveRecord(run, owner, None, None, owner.replayStatus, env), env, Reconciling, Stopped)
  }

  function ConfirmAdvance(run: RunConfig, store: RunStore, owner: Owner, event: Event, fallback: Control,
                          env: Env): Moved {
    var replayStatus := ReplayStatusFor(event.eventType);
    var saved := Save(store, owner, SaveRecord(run, owner, None, None, replayStatus, env), env, Ready, fallback);
    if saved.owner.checkpoint.version == owner.checkpoint.version then saved
    else saved.(owner := saved.owner.(replayStatus := replayStatus))
  }

  /** Where a recovered owner goes: on with its interrupt batch, or to a new attempt. */
  function Recovered(owner: Owner): Control {
    if owner.progress.Some? then Interrupting else Loading
  }

  function NextPage(store: RunStore, owner: Owner, runID: string): seq<Record> {
    Page(Matching(store.journal, Query("", runID, owner.cursor, 0)), RECONCILE_PAGE_SIZE)
  }

  function ListPage(run: RunConfig, store: RunStore, owner: Owner, env: Env): Owner {
    var page := NextPage(store, owner, run.identity.runID);
    if env.fails || owner.cursor < 0 then owner.(control := Stopped)
    else if page == [] then owner.(control := Recovered(owner))
    else owner.(control := ReplayingPage(page, |page| == RECONCILE_PAGE_SIZE))
  }

  function ReplayPage(run: RunConfig, store: RunStore, owner: Owner, page: seq<Record>, full: bool, env: Env): Moved {
    if page == [] then
      Save(store, owner, SaveRecord(run, owner, None, None, owner.replayStatus, env), env,
           if full then Reconciling else Recovered(owner), Stopped)
    else if !ValidJournalRecord(run, page[0], owner.cursor + 1) then Moved(store, owner.(control := Stopped))
    else
      var offered := owner.(offers := owner.offers + [page[0].sequence]);
      if env.fails then Moved(store, offered.(control := Releasing))
      else Moved(store,
        offered.(sequence := page[0].sequence, cursor := page[0].sequence, control := ReplayingPage(page[1..], full)))
  }

  function InterruptNext(run: RunConfig, store: RunStore, owner: Owner, env: Env): Moved {
    match owner.progress
    case None => Moved(store, owner)
    case Some(batch) =>
      if 0 <= batch.next < |batch.events| then
        var event := batch.events[batch.next];
        Save(store, owner, SaveRecord(run, owner, Some(event), None, owner.replayStatus, env), env,
          Journaling(event, Batch), Stuck)
      else
        var saved := Save(store, owner.(progress := None), ClosingRecord(owner, Interrupted, None, env), env,
          Suspended, Stuck);
        if saved.owner.control == Suspended then saved else saved.(owner := saved.owner.(progress := owner.progress))
  }

  // ----- all owners of a run -----

  datatype System = System(store: RunStore, owners: seq<Owner>, offered: set<int>)

  const NEW_SYSTEM := System(EMPTY_STORE, [], {})

  datatype Happening =
    | Start(ownerID: string)
    | Resume(version: int, ownerID: string, resolutions: seq<Resolution>, resolved: seq<ResolvedInterrupt>)
    | Act(index: nat, action: Action)

  datatype Move = Move(what: Happening, env: Env)

  /** prepareCheckpoint for a new run. */
  function FirstRecord(run: RunConfig, ownerID: string, env: Env): Checkpoint {
    Checkpoint(
      run.identity, 1, Running,
      Payload(env.work, ownerID, env.now + LeaseOf(run), 1, 0, None, None, [], None, []),
      0, 0, ReplayUnknown, ownerID, env.now + LeaseOf(run), run.leaseDuration, 1, env.now, env.now)
  }

  /** claimCheckpoint: the loaded record under the next claim. */
  function ClaimRecord(run: RunConfig, loaded: Checkpoint, ownerID: string, resolved: Option<seq<ResolvedInterrupt>>,
                       env: Env): Checkpoint {
    var payload := match resolved
                   case Some(answers) => loaded.payload.(resolvedInterrupts := answers, pendingInterrupts := [])
                   case None => loaded.payload;
    loaded.(
      payload := payload.(ownerID := ownerID, leaseExpiresAt := env.now + LeaseOf(run),
        claimSequence := loaded.claimSequence + 1),
      status := Running, ownerID := ownerID, leaseExpiresAt := env.now + LeaseOf(run),
      leaseDuration := run.leaseDuration, claimSequence := loaded.claimSequence + 1, updatedAt := env.now)
  }

  /** The resolutions a resume supplies fit the loaded checkpoint. */
  ghost predicate ResolutionsFit(loaded: Checkpoint, resolutions: seq<Resolution>, resolved: seq<ResolvedInterrupt>) {
    if loaded.status == Interrupted
    then Exact(loaded.payload.pendingInterrupts, resolutions)
      && Answers(loaded.payload.pendingInterrupts, resolutions, resolved)
    else ReplayAllowed(loaded.payload.resolvedInterrupts, resolutions)
  }

  /** The execution of a new run. */
  function NewOwner(created: Checkpoint): Owner {
    Owner(created, 0, 0, [], None, ReplayUnknown, Starting, 0, [])
  }

  /** applyResumePayload and the first half of restore. */
  function Restored(run: RunConfig, claimed: Checkpoint, env: Env): Owner {
    var payload := claimed.payload;
    Owner(
      claimed, payload.eventCursor, payload.eventCursor, payload.pendingInterrupts, payload.interruptProgress,
      claimed.replayStatus,
      match payload.pendingEvent
      case None => Reconciling
      case Some(event) =>
        if event.sequence != payload.eventCursor + 1 then Stopped
        else Journaling(Stamp(run, event, event.sequence, env.now), Replay(payload.pendingTerm)),
      payload.eventCursor, [])
  }

  ghost function Next(run: RunConfig, system: System, move: Move): System {
    match move.what
    case Start(ownerID) =>
      var record := FirstRecord(run, ownerID, move.env);
      var written := Attempt(system.store, move.env, Created(system.store, record, move.env.now));
      if written.error.Some? || ownerID == "" then system
      else System(written.store, system.owners + [NewOwner(record)], system.offered)
    case Resume(version, ownerID, resolutions, resolved) =>
      if !(1 <= version <= |system.store.history|) then system
      else
        // any snapshot read earlier; the claim is refused unless it is still the head
        var loaded := system.store.history[version - 1];
        if Terminal(loaded.status) || !ValidInterruptProgress(run, loaded)
          || !ResolutionsFit(loaded, resolutions, resolved) then system
        else
          var candidate :=
            ClaimRecord(run, loaded, ownerID, if loaded.status == Interrupted then Some(resolved) else None, move.env);
          TakeOver(run, system, candidate, version, move.env)
    case Act(index, action) =>
      if index >= |system.owners| || system.owners[index].control == Stopped then system
      else
        AfterMove(system, index, Step(run, system.store, system.owners[index], action, move.env))
  }

  /** Claims the run; a granted claim brings in a new, restored owner. */
  ghost function TakeOver(run: RunConfig, system: System, candidate: Checkpoint, version: int, env: Env): System {
    var written := Attempt(system.store, env, Claimed(system.store, candidate, version, env.now));
    if written.error.Some? then system
    else System(written.store, system.owners + [Restored(run, candidate.(version := version + 1), env)], system.offered)
  }

  /** One owner has moved; what it newly offered counts as offered. */
  ghost function AfterMove(system: System, index: nat, moved: Moved): System
    requires index < |system.owners|
  {
    var before := |system.owners[index].offers|;
    System(moved.store, system.owners[index := moved.owner],
           system.offered + (set i | before <= i < |moved.owner.offers| :: moved.owner.offers[i]))
  }

  /** The system after a run of moves by any owners in any order. */
  ghost function Execution(run: RunConfig, moves: seq<Move>): System {
    if moves == [] then NEW_SYSTEM else Next(run, Execution(run, moves[..|moves| - 1]), moves[|moves| - 1])
  }
}
