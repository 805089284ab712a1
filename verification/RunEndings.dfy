/** Endings that leave a run nobody can resume, when they happen, and that they do happen
    (workflow/workflow.go). */
module RunEndings {
  import opened Options
  import opened Runlog
  import opened CheckpointStore
  import opened StoreSafety
  import opened RunProtocol
  import opened RunInvariant
  import opened RunSafety
  import opened RunTheorems
  import opened RunProgress

  /** The checkpoint that announces an ending is accepted by a resume exactly when no
      interrupt batch is under way and the run waits for nothing: otherwise the batch or
      the waits are carried along, which does not fit a running record that ends. */
  lemma EndingIsResumableIff(run: RunConfig, owner: Owner, outcome: Outcome, pending: Event, env: Env)
    requires pending.eventType == WorkflowEnded(outcome)
    ensures ValidInterruptProgress(run, SaveRecord(run, owner, Some(pending), Some(outcome), owner.replayStatus, env))
       <==> owner.progress.None? && owner.interrupts == []
  {
    hide InterruptIdentityMatches, RequestMatches;
    if owner.progress.Some? {
      var progress := owner.progress.value;
      if BatchShaped(run, owner.interrupts, progress.events) && 0 <= progress.next < |progress.events| {
        assert progress.events[progress.next].eventType != WorkflowEnded(outcome);
      }
    }
  }

  // ----- what one of the owners does -----

  /** After these moves the owner with this number stands like that. */
  ghost predicate Acting(run: RunConfig, moves: seq<Move>, index: nat, moved: Moved) {
    && Execution(run, moves).store == moved.store
    && index < |Execution(run, moves).owners| && Execution(run, moves).owners[index] == moved.owner
  }

  lemma OneMore(run: RunConfig, moves: seq<Move>, move: Move)
    ensures Execution(run, moves + [move]) == Next(run, Execution(run, moves), move)
  {
    hide Next;
    assert (moves + [move])[..|moves|] == moves;
  }

  lemma ActAlone(run: RunConfig, moves: seq<Move>, index: nat, moved: Moved, action: Action, env: Env)
    requires Acting(run, moves, index, moved) && moved.owner.control != Stopped
    ensures Acting(run, moves + [Move(Act(index, action), env)], index,
      Step(run, moved.store, moved.owner, action, env))
  {
    hide Step, Execution;
    OneMore(run, moves, Move(Act(index, action), env));
  }

  lemma ContinueAlone(run: RunConfig, moves: seq<Move>, index: nat, moved: Moved, env: Env)
    requires Acting(run, moves, index, moved)
    ensures Acting(run, moves + [Move(Act(index, Continue), env)], index, Go(run, moved, Continue, env))
  {
    if moved.owner.control == Stopped {
      hide Execution;
      OneMore(run, moves, Move(Act(index, Continue), env));
    } else {
      hide Step, Acting;
      ActAlone(run, moves, index, moved, Continue, env);
    }
  }

  lemma {:induction false} ContinuesAlone(run: RunConfig, moves: seq<Move>, index: nat, world: World, moved: Moved,
                                          env: Env, count: nat)
    returns (later: seq<Move>)
    requires Acting(run, moves, index, moved) && ClockRuns(moves) && env.now > 0 && forall k :: world(k) == env
    ensures Acting(run, later, index, Carried(run, world, moved, 0, count)) && ClockRuns(later)
  {
    hide Acting, Go;
    if count == 0 {
      later := moves;
    } else {
      var before := ContinuesAlone(run, moves, index, world, moved, env, count - 1);
      later := before + [Move(Act(index, Continue), env)];
      ContinueAlone(run, before, index, Carried(run, world, moved, 0, count - 1), env);
    }
  }

  lemma ActingIsConsistent(run: RunConfig, moves: seq<Move>, index: nat, moved: Moved)
    requires ValidRun(run) && ClockRuns(moves) && Acting(run, moves, index, moved)
    ensures Consistent(run, moved)
  {
    Reachable(run, moves);
    hide SoundStore, OwnerOK, Execution;
  }

  // ----- nothing fails -----

  ghost predicate Undisturbed(run: RunConfig, moved: Moved, lease: Time) {
    Consistent(run, moved) && Holds(moved, lease)
  }

  /** A pending event is appended and delivered. */
  lemma EmitsQuietly(run: RunConfig, moved: Moved, event: Event, purpose: Purpose, env: Env, lease: Time)
    requires ValidRun(run) && Quiet(env, lease) && Undisturbed(run, moved, lease)
    requires moved.owner.control == Journaling(event, purpose) && purpose != Observe && purpose != Load
    ensures var after := Go(run, Go(run, moved, Continue, env), Continue, env);
            && Undisturbed(run, after, lease)
            && after.owner.control.Confirming? && after.owner.control.purpose == purpose
            && after.owner.progress == Advanced(moved.owner.progress, after.owner.control.event, purpose)
            && after.owner.interrupts == moved.owner.interrupts && after.owner.checkpoint == moved.owner.checkpoint
  {
    var journaled := Go(run, moved, Continue, env);
    HoldingFacts(run, moved, lease);
    QuietJournal(run, moved, env, lease);
    GoKeeps(run, moved, env);
    AppendsQuietly(run, moved, event, purpose, env, lease);
    GoKeeps(run, journaled, env);
    DeliversQuietly(run, journaled, env, lease);
    hide Go, Consistent, Advanced;
  }

  lemma AppendsQuietly(run: RunConfig, moved: Moved, event: Event, purpose: Purpose, env: Env, lease: Time)
    requires moved.owner.control == Journaling(event, purpose) && Unhindered(Go(run, moved, Continue, env), lease)
    requires moved.store.head.Some? && moved.store.head.value.status == Running
    ensures var after := Go(run, moved, Continue, env);
            && Holds(after, lease) && after.owner.control.Delivering? && after.owner.control.purpose == purpose
            && after.owner.progress == moved.owner.progress && after.owner.interrupts == moved.owner.interrupts
            && after.owner.control.event.eventType == event.eventType
            && after.owner.sequence == moved.owner.sequence + 1
            && after.owner.checkpoint == moved.owner.checkpoint
  {
    StampKeepsType(run, event, moved.owner.sequence + 1, env.now);
    hide Stamp, Entry, Appended;
  }

  lemma StampKeepsType(run: RunConfig, event: Event, sequence: int, now: Time)
    ensures Stamp(run, event, sequence, now).eventType == event.eventType
  {
  }

  lemma DeliversQuietly(run: RunConfig, moved: Moved, env: Env, lease: Time)
    requires Quiet(env, lease) && Holds(moved, lease) && moved.owner.control.Delivering?
    requires moved.owner.control.purpose != Observe && moved.owner.control.purpose != Load
    ensures var after, event, purpose :=
      Go(run, moved, Continue, env), moved.owner.control.event, moved.owner.control.purpose;
            && Holds(after, lease) && after.owner.control == Confirming(event, purpose)
            && after.owner.progress == Advanced(moved.owner.progress, event, purpose)
            && after.owner.interrupts == moved.owner.interrupts && after.owner.checkpoint == moved.owner.checkpoint
  {
    hide Advanced;
  }

  /** A new run reports that it started. */
  lemma StartsQuietly(run: RunConfig, world: World, moved: Moved, env: Env, lease: Time)
    requires ValidRun(run) && Quiet(env, lease) && Undisturbed(run, moved, lease) && forall k :: world(k) == env
    requires moved.owner.control == Starting
    ensures var after := Carried(run, world, moved, 0, 4);
            && Undisturbed(run, after, lease) && after.owner.control == Ready && Settled(after)
            && after.owner.checkpoint.payload.resolvedInterrupts == moved.owner.checkpoint.payload.resolvedInterrupts
  {
    hide Consistent;
    var saved := Go(run, moved, Continue, env);
    SavesAttempt(run, moved, env, lease);
    GoKeeps(run, moved, env);
    EmitsQuietly(run, saved, saved.owner.control.event, Begin, env, lease);
    var delivered := Go(run, Go(run, saved, Continue, env), Continue, env);
    ConfirmsAttempt(run, delivered, env, lease);
    GoKeeps(run, delivered, env);
    hide Go;
    FourSteps(run, world, moved, env);
  }

  /** Nothing is pending and everything delivered is confirmed. */
  ghost predicate Settled(moved: Moved) {
    var record := moved.owner.checkpoint;
    record.payload.pendingEvent.None? && record.confirmedSequence == moved.owner.cursor
      && 0 < record.payload.work.size <= MAX_PAYLOAD_BYTES
  }

  lemma AttemptSequence(run: RunConfig, moved: Moved, lease: Time)
    requires Undisturbed(run, moved, lease) && (moved.owner.control == Starting || moved.owner.control == Resuming)
    ensures moved.owner.sequence >= 0
  {
    HoldingFacts(run, moved, lease);
    hide Consistent;
  }

  lemma SavesAttempt(run: RunConfig, moved: Moved, env: Env, lease: Time)
    requires ValidRun(run) && Quiet(env, lease) && Undisturbed(run, moved, lease)
    requires moved.owner.control == Starting || moved.owner.control == Resuming
    ensures var after := Go(run, moved, Continue, env);
            && Holds(after, lease) && after.owner.control.Journaling? && after.owner.control.purpose == Begin
            && after.owner.control.event.eventType == AttemptType(run, moved.owner.control == Resuming)
            && after.owner.sequence == moved.owner.sequence
            && after.owner.checkpoint.payload.resolvedInterrupts == moved.owner.checkpoint.payload.resolvedInterrupts
  {
    hide BeginAttempt, Undisturbed, Holds;
    SavesAttemptEvent(run, moved, AttemptEvent(run, moved.owner.control == Resuming), env, lease);
  }

  lemma SavesAttemptEvent(run: RunConfig, moved: Moved, event: Event, env: Env, lease: Time)
    requires ValidRun(run) && Quiet(env, lease) && Undisturbed(run, moved, lease)
    requires moved.owner.control == Starting || moved.owner.control == Resuming
    ensures var after := BeginAttempt(run, moved.store, moved.owner, event, env);
            && Holds(after, lease) && after.owner.control.Journaling? && after.owner.control.purpose == Begin
            && after.owner.control.event.eventType == event.eventType && after.owner.sequence == moved.owner.sequence
            && after.owner.checkpoint.payload.resolvedInterrupts == moved.owner.checkpoint.payload.resolvedInterrupts
  {
    hide Stored, Consistent, Stamp, Holds;
    AttemptSequence(run, moved, lease);
    StampKeepsType(run, event, moved.owner.sequence + 1, env.now);
    var pending := Stamp(run, event, moved.owner.sequence + 1, env.now);
    StampedAt(run, event, moved.owner.sequence + 1, env.now);
    QuietSave(run, moved, Some(pending), ReplayStatusFor(event.eventType), env, Journaling(pending, Begin), Stopped,
              lease);
  }

  lemma ConfirmsAttempt(run: RunConfig, moved: Moved, env: Env, lease: Time)
    requires ValidRun(run) && Quiet(env, lease) && Undisturbed(run, moved, lease)
    requires moved.owner.control.Confirming? && moved.owner.control.purpose == Begin
    ensures var after := Go(run, moved, Continue, env);
            && Holds(after, lease) && after.owner.control == Ready && Settled(after)
            && after.owner.checkpoint.payload.resolvedInterrupts == moved.owner.checkpoint.payload.resolvedInterrupts
  {
    hide Stored, Consistent;
    QuietSave(run, moved, None, ReplayStatusFor(moved.owner.control.event.eventType), env, Ready, Stopped, lease);
  }

  lemma FourSteps(run: RunConfig, world: World, moved: Moved, env: Env)
    requires forall k :: world(k) == env
    ensures Carried(run, world, moved, 0, 4)
         == Go(run, Go(run, Go(run, Go(run, moved, Continue, env), Continue, env), Continue, env), Continue, env)
  {
    hide Go;
    assert Carried(run, world, moved, 0, 0) == moved;
    assert Carried(run, world, moved, 0, 1) == Go(run, moved, Continue, env);
    assert Carried(run, world, moved, 0, 2) == Go(run, Carried(run, world, moved, 0, 1), Continue, env);
    assert Carried(run, world, moved, 0, 3) == Go(run, Carried(run, world, moved, 0, 2), Continue, env);
  }

  /** An owner in the middle of its interrupt batch, with nothing in the way. */
  ghost predicate Suspending(run: RunConfig, moved: Moved, lease: Time, waits: seq<PendingInterrupt>,
                             events: seq<Event>, next: nat) {
    && Undisturbed(run, moved, lease) && moved.owner.control == Interrupting
    && moved.owner.interrupts == waits && moved.owner.progress == Some(InterruptProgress(events, next))
    && next <= |events|
  }

  lemma SavesBatchEvent(run: RunConfig, moved: Moved, env: Env, lease: Time, waits: seq<PendingInterrupt>,
                        events: seq<Event>, next: nat)
    requires ValidRun(run) && Quiet(env, lease) && Suspending(run, moved, lease, waits, events, next) && next < |events|
    ensures var after := Go(run, moved, Continue, env);
            && Undisturbed(run, after, lease) && after.owner.control == Journaling(events[next], Batch)
            && after.owner.interrupts == waits && after.owner.progress == moved.owner.progress
            && after.owner.checkpoint.payload
                 == SaveRecord(run, moved.owner, Some(events[next]), None, moved.owner.replayStatus, env).payload
  {
    hide SaveRecord, Consistent, Stored, Holds;
    GoKeeps(run, moved, env);
    BatchAtHand(run, moved, lease);
    QuietSave(run, moved, Some(events[next]), moved.owner.replayStatus, env, Journaling(events[next], Batch), Stuck,
              lease);
  }

  lemma ConfirmsBatchEvent(run: RunConfig, moved: Moved, env: Env, lease: Time)
    requires ValidRun(run) && Quiet(env, lease) && Undisturbed(run, moved, lease)
    requires moved.owner.control.Confirming? && moved.owner.control.purpose == Batch
    ensures var after := Go(run, moved, Continue, env);
            && Undisturbed(run, after, lease) && after.owner.control == Interrupting
            && after.owner.progress == moved.owner.progress && after.owner.interrupts == moved.owner.interrupts
  {
    hide SaveRecord, Consistent, Stored, Holds;
    GoKeeps(run, moved, env);
    QuietSave(run, moved, None, moved.owner.replayStatus, env, Interrupting, Stuck, lease);
  }

  lemma CommitsBatchEvent(run: RunConfig, world: World, moved: Moved, env: Env, lease: Time,
                          waits: seq<PendingInterrupt>, events: seq<Event>, next: nat)
    requires ValidRun(run) && Quiet(env, lease) && forall k :: world(k) == env
    requires Suspending(run, moved, lease, waits, events, next) && next < |events|
    ensures Suspending(run, Carried(run, world, moved, 0, 4), lease, waits, events, next + 1)
  {
    hide Go, Undisturbed;
    var saved := Go(run, moved, Continue, env);
    SavesBatchEvent(run, moved, env, lease, waits, events, next);
    EmitsQuietly(run, saved, events[next], Batch, env, lease);
    ConfirmsBatchEvent(run, Go(run, Go(run, saved, Continue, env), Continue, env), env, lease);
    FourSteps(run, world, moved, env);
  }

  lemma {:induction false} CommitsBatch(run: RunConfig, world: World, moved: Moved, env: Env, lease: Time,
                                        waits: seq<PendingInterrupt>, events: seq<Event>,
                                        next: nat) returns (count: nat)
    requires ValidRun(run) && Quiet(env, lease) && forall k :: world(k) == env
    requires Suspending(run, moved, lease, waits, events, next)
    ensures Suspending(run, Carried(run, world, moved, 0, count), lease, waits, events, |events|)
    decreases |events| - next
  {
    hide Suspending, Go;
    AtMost(run, moved, lease, waits, events, next);
    if next == |events| {
      count := 0;
    } else {
      CommitsBatchEvent(run, world, moved, env, lease, waits, events, next);
      var after := Carried(run, world, moved, 0, 4);
      var more := CommitsBatch(run, world, after, env, lease, waits, events, next + 1);
      count := more + 4;
      ShiftedCarry(run, world, after, env, more);
      CarriedOn(run, world, moved, 0, 4, count);
    }
  }

  lemma AtMost(run: RunConfig, moved: Moved, lease: Time, waits: seq<PendingInterrupt>, events: seq<Event>, next: nat)
    requires Suspending(run, moved, lease, waits, events, next)
    ensures next <= |events|
  {
  }

  /** In a world that does not change it does not matter when the calls are made. */
  lemma {:induction false} ShiftedCarry(run: RunConfig, world: World, moved: Moved, env: Env, count: nat)
    requires forall k :: world(k) == env
    ensures Carried(run, world, moved, 4, 4 + count) == Carried(run, world, moved, 0, count)
  {
    hide Go;
    if count > 0 {
      ShiftedCarry(run, world, moved, env, count - 1);
    }
  }

  /** A whole batch leaves the run interrupted, waiting for these. */
  lemma Suspends(run: RunConfig, moved: Moved, env: Env, lease: Time, waits: seq<PendingInterrupt>, events: seq<Event>)
    requires ValidRun(run) && Quiet(env, lease) && Suspending(run, moved, lease, waits, events, |events|)
    ensures var after := Go(run, moved, Continue, env);
            && after.owner.control == Suspended && after.owner.interrupts == waits && after.owner.progress.None?
            && Finished(after) && Consistent(run, after) && after.owner.checkpoint.createdAt != 0
            && after.store.head.value.claimSequence == after.owner.checkpoint.claimSequence
  {
    hide ClosingRecord, Stored, Consistent;
    GoKeeps(run, moved, env);
    ClearedHolds(run, moved, env, lease);
    ClosedClaim(run, moved, env, lease);
  }

  lemma ClosedClaim(run: RunConfig, moved: Moved, env: Env, lease: Time)
    requires ValidRun(run) && Quiet(env, lease) && Undisturbed(run, moved, lease) && moved.owner.control == Interrupting
    ensures var cleared := moved.(owner := moved.owner.(progress := None));
            var after := Save(cleared.store, cleared.owner, ClosingRecord(moved.owner, Interrupted, None, env), env,
              Suspended, Stuck);
            && after.owner.interrupts == moved.owner.interrupts && after.owner.progress.None?
            && after.owner.checkpoint.createdAt != 0
            && after.store.head.Some? && after.store.head.value.claimSequence == after.owner.checkpoint.claimSequence
  {
    HoldingFacts(run, moved, lease);
    SaveSucceeds(run, moved.store, moved.owner.(progress := None), ClosingRecord(moved.owner, Interrupted, None, env),
                 env, Suspended, Stuck, lease);
    hide Consistent, Current, Stored;
  }

  // ----- how it comes about -----

  lemma Begins(run: RunConfig, ownerID: string, env: Env) returns (moves: seq<Move>, moved: Moved)
    requires ValidRun(run) && ownerID != "" && !env.fails && env.now > 0 && 0 < env.work.size <= MAX_PAYLOAD_BYTES
    ensures ClockRuns(moves) && Acting(run, moves, 0, moved) && moved.owner.control == Starting
    ensures moved.store.journal == []
    ensures Settled(moved) && moved.owner.checkpoint.payload.resolvedInterrupts == []
    ensures Undisturbed(run, moved, env.now + run.leaseDuration)
  {
    var first, start := FirstRecord(run, ownerID, env), Move(Start(ownerID), env);
    moves := [start];
    moved := Moved(Push(EMPTY_STORE, first.(leaseDuration := 0)), NewOwner(first));
    assert moves[..0] == [];
    assert Execution(run, []) == NEW_SYSTEM;
    StartFacts(run, ownerID, env);
    assert Execution(run, moves) == Next(run, NEW_SYSTEM, start);
    ActingIsConsistent(run, moves, 0, moved);
    hide Consistent, Execution;
  }

  lemma StartFacts(run: RunConfig, ownerID: string, env: Env)
    requires ValidRun(run) && ownerID != "" && !env.fails && env.now > 0 && 0 < env.work.size <= MAX_PAYLOAD_BYTES
    ensures var first, started := FirstRecord(run, ownerID, env), Next(run, NEW_SYSTEM, Move(Start(ownerID), env));
            && started.store == Push(EMPTY_STORE, first.(leaseDuration := 0))
            && started.owners == [NewOwner(first)]
  {
  }

  /** A run that has begun its interrupt batch. */
  lemma BeginsBatch(run: RunConfig, ownerID: string, waits: seq<PendingInterrupt>, first: InterruptRequest, env: Env)
    returns (moves: seq<Move>, moved: Moved, events: seq<Event>)
    requires ValidRun(run) && ownerID != "" && !env.fails && env.now > 0 && 0 < env.work.size <= MAX_PAYLOAD_BYTES
    requires waits != []
    ensures ClockRuns(moves) && Acting(run, moves, 0, moved)
    ensures |events| == |waits| + 1 && events[|waits|].summary == first.subject
    ensures Suspending(run, moved, env.now + run.leaseDuration, waits, events, 0)
  {
    hide Execution, Consistent, Acting, ClockRuns, Holds, Carried, BatchEvents;
    var lease, world: World := env.now + run.leaseDuration, k => env;
    var start, started := Begins(run, ownerID, env);
    var ready := ContinuesAlone(run, start, 0, world, started, env, 4);
    var working := Carried(run, world, started, 0, 4);
    StartsQuietly(run, world, started, env, lease);
    events := BatchEvents(run, waits, first, working.owner.sequence, env.now);
    moved := Step(run, working.store, working.owner, BeginInterrupts(waits, first), env);
    moves := ready + [Move(Act(0, BeginInterrupts(waits, first)), env)];
    ActAlone(run, ready, 0, working, BeginInterrupts(waits, first), env);
    ClockRunsOn(ready, Move(Act(0, BeginInterrupts(waits, first)), env));
    BeginsSoundly(run, working, waits, first, env, lease);
  }

  lemma ClockRunsOn(moves: seq<Move>, move: Move)
    requires ClockRuns(moves) && move.env.now > 0
    ensures ClockRuns(moves + [move])
  {
  }

  lemma BeginsSoundly(run: RunConfig, working: Moved, waits: seq<PendingInterrupt>, first: InterruptRequest, env: Env,
                      lease: Time)
    requires ValidRun(run) && env.now > 0 && Undisturbed(run, working, lease) && working.owner.control == Ready
    requires waits != []
    ensures Undisturbed(run, Step(run, working.store, working.owner, BeginInterrupts(waits, first), env), lease)
  {
    hide SoundStore, OwnerOK, BatchEvents;
    StepKeeps(run, working.store, working.owner, BeginInterrupts(waits, first), env);
  }

  /** An interrupt whose own request is not the first of its list is reported by a batch
      that no resume accepts: a crash before the batch is done leaves the run for good. */
  lemma MisreportedBatch(run: RunConfig, ownerID: string, waits: seq<PendingInterrupt>, first: InterruptRequest,
                         work: Work)
    returns (moves: seq<Move>)
    requires ValidRun(run) && ownerID != "" && 0 < work.size <= MAX_PAYLOAD_BYTES
    requires waits != [] && first.subject != waits[0].request.subject
    ensures ClockRuns(moves) && Execution(run, moves).store.head.Some?
    ensures var head := Execution(run, moves).store.head.value;
            && head.status == Running && head.payload.pendingTerm.None? && head.payload.pendingInterrupts == waits
            && !ValidInterruptProgress(run, head)
  {
    hide Execution, Consistent, ClockRuns, Carried, Go;
    var env := Env(1, false, work);
    var begun, moved, events := BeginsBatch(run, ownerID, waits, first, env);
    ContinueAlone(run, begun, 0, moved, env);
    SavesBatchEvent(run, moved, env, env.now + run.leaseDuration, waits, events, 0);
    moves := begun + [Move(Act(0, Continue), env)];
    ClockRunsOn(begun, Move(Act(0, Continue), env));
    var after := Go(run, moved, Continue, env);
    HoldingFacts(run, after, env.now + run.leaseDuration);
    assert after.store.head.value.payload == after.owner.checkpoint.payload;
  }

  lemma ConcludesAlone(run: RunConfig, moves: seq<Move>, index: nat, moved: Moved, outcome: Outcome, env: Env)
    returns (later: seq<Move>, pending: Event)
    requires ValidRun(run) && env.now > 0 && Acting(run, moves, index, moved) && ClockRuns(moves)
    requires MayConclude(moved.owner.control)
    ensures ClockRuns(later) && moves < later && pending.eventType == WorkflowEnded(outcome)
    ensures pending.sequence == moved.owner.sequence + 1
    ensures var record := SaveRecord(run, moved.owner, Some(pending), Some(outcome), moved.owner.replayStatus, env);
            Acting(run, later, index, Save(moved.store, moved.owner, record, env,
                                           Journaling(pending, Conclude(outcome)), Stopped))
  {
    hide Execution, Acting, Save, SaveRecord, ClockRuns;
    var event := BLANK_EVENT.(eventType := WorkflowEnded(outcome));
    pending := ConcludeIsSave(run, moved.store, moved.owner, outcome, event, env);
    ActAlone(run, moves, index, moved, BeginConclude(outcome, event), env);
    later := moves + [Move(Act(index, BeginConclude(outcome, event)), env)];
    ClockRunsOn(moves, Move(Act(index, BeginConclude(outcome, event)), env));
  }

  /** A run canceled after its interrupt batch failed part way, whose owner then crashes,
      is left with a head that no resume accepts. */
  lemma CanceledInsideBatch(run: RunConfig, ownerID: string, waits: seq<PendingInterrupt>, first: InterruptRequest,
                            work: Work)
    returns (moves: seq<Move>)
    requires ValidRun(run) && ownerID != "" && 0 < work.size <= MAX_PAYLOAD_BYTES && waits != []
    ensures ClockRuns(moves) && Execution(run, moves).store.head.Some?
    ensures var head := Execution(run, moves).store.head.value;
            && head.status == Running && head.payload.pendingTerm == Some(Canceled)
            && head.payload.interruptProgress.Some?
            && !ValidInterruptProgress(run, head)
  {
    hide Execution, Consistent, ClockRuns, Carried, Save, Stored;
    var env, failing := Env(1, false, work), Env(1, true, work);
    var begun, moved, events := BeginsBatch(run, ownerID, waits, first, env);
    ContinueAlone(run, begun, 0, moved, failing);
    ClockRunsOn(begun, Move(Act(0, Continue), failing));
    var stuck := Moved(moved.store, moved.owner.(control := Stuck));
    BatchSaveFails(run, moved, failing, env.now + run.leaseDuration, waits, events);
    var pending;
    moves, pending := ConcludesAlone(run, begun + [Move(Act(0, Continue), failing)], 0, stuck, Canceled, env);
    CancelIsSaved(run, moved, stuck, pending, env, env.now + run.leaseDuration);
    EndingIsResumableIff(run, stuck.owner, Canceled, pending, env);
  }

  lemma BatchSaveFails(run: RunConfig, moved: Moved, failing: Env, lease: Time, waits: seq<PendingInterrupt>,
                       events: seq<Event>)
    requires Suspending(run, moved, lease, waits, events, 0) && events != [] && failing.fails
    ensures Go(run, moved, Continue, failing) == Moved(moved.store, moved.owner.(control := Stuck))
  {
    hide SaveRecord, Consistent, Stored;
  }

  /** An announced ending is saved. */
  ghost predicate Announced(run: RunConfig, before: Moved, pending: Event, env: Env) {
    var record := SaveRecord(run, before.owner, Some(pending), Some(Canceled), before.owner.replayStatus, env);
    var saved := Save(before.store, before.owner, record, env, Journaling(pending, Conclude(Canceled)), Stopped);
    && saved.store.head.Some? && saved.store.head.value.payload == record.payload
    && saved.store.head.value.status == Running
    && saved.store.head.value.ownerID == record.ownerID
    && (ValidInterruptProgress(run, saved.store.head.value) <==> ValidInterruptProgress(run, record))
    && saved.owner.control.Journaling?
  }

  lemma CancelIsSaved(run: RunConfig, moved: Moved, stuck: Moved, pending: Event, env: Env, lease: Time)
    requires ValidRun(run) && Quiet(env, lease) && Undisturbed(run, moved, lease) && moved.owner.control == Interrupting
    requires stuck == Moved(moved.store, moved.owner.(control := Stuck)) && pending.sequence == moved.owner.sequence + 1
    ensures Announced(run, stuck, pending, env)
  {
    HoldingFacts(run, moved, lease);
    CancelIsAccepted(run, stuck, pending, env);
  }

  lemma CancelIsAccepted(run: RunConfig, before: Moved, pending: Event, env: Env)
    requires ValidRun(run) && !env.fails && env.now > 0 && 0 < env.work.size <= MAX_PAYLOAD_BYTES
    requires before.store.head.Some? && Bare(before.owner.checkpoint) == Bare(before.store.head.value)
    requires before.owner.checkpoint.createdAt != 0 && before.owner.checkpoint.version > 0
    requires !Terminal(before.store.head.value.status) && before.store.head.value.identity == run.identity
    requires before.store.head.value.ownerID != "" ==> before.store.head.value.leaseExpiresAt > env.now
    requires before.owner.cursor >= 0 && pending.sequence >= 0
    ensures Announced(run, before, pending, env)
  {
    var record := SaveRecord(run, before.owner, Some(pending), Some(Canceled), before.owner.replayStatus, env);
    hide ProgressConsistent, ReportsFirst;
    assert Stored(before.store, record, record.version, false, env.now).error.None?;
    var saved := Save(before.store, before.owner, record, env, Journaling(pending, Conclude(Canceled)), Stopped);
    SameProgress(run, record, saved.store.head.value);
  }

  lemma SameProgress(run: RunConfig, left: Checkpoint, right: Checkpoint)
    requires left.payload == right.payload && left.status == right.status
    requires left.confirmedSequence == right.confirmedSequence
    requires left.pendingSequence == right.pendingSequence
    ensures ValidInterruptProgress(run, left) <==> ValidInterruptProgress(run, right)
  {
    hide BatchShaped;
  }

  /** A run canceled just after it was left interrupted is announced to end by nobody: it
      still waits for the same, but is no longer interrupted. */
  ghost predicate Abandoned(store: RunStore) {
    && store.head.Some?
    && var head := store.head.value;
       && head.status == Running && head.ownerID == "" && head.payload.pendingTerm.Some?
       && head.payload.interruptProgress.None? && head.payload.pendingInterrupts != []
  }

  lemma AbandonedIsUnresumable(run: RunConfig, store: RunStore)
    requires Abandoned(store)
    ensures !ValidInterruptProgress(run, store.head.value)
  {
  }

  /** It happens whenever a cancellation comes in between: with no failure and no crash,
      for whatever the run waits. */
  lemma CanceledAfterInterrupt(run: RunConfig, ownerID: string, waits: seq<PendingInterrupt>, first: InterruptRequest,
                               work: Work)
    returns (interrupted: seq<Move>, moves: seq<Move>)
    requires ValidRun(run) && ownerID != "" && 0 < work.size <= MAX_PAYLOAD_BYTES && waits != []
    ensures ClockRuns(interrupted) && Execution(run, interrupted).store.head.Some?
    ensures Execution(run, interrupted).store.head.value.status == Interrupted
    ensures ClockRuns(moves) && Abandoned(Execution(run, moves).store) && interrupted < moves
    ensures Execution(run, moves).store.head.value.payload.pendingInterrupts == waits
  {
    hide Execution, Consistent, ClockRuns, Carried, Save, Stored;
    var env := Env(1, false, work);
    var lease, world: World := env.now + run.leaseDuration, k => env;
    var begun, moved, events := BeginsBatch(run, ownerID, waits, first, env);
    var count := CommitsBatch(run, world, moved, env, lease, waits, events, 0);
    var whole := ContinuesAlone(run, begun, 0, world, moved, env, count);
    var last := Carried(run, world, moved, 0, count);
    Suspends(run, last, env, lease, waits, events);
    ContinueAlone(run, whole, 0, last, env);
    interrupted := whole + [Move(Act(0, Continue), env)];
    ClockRunsOn(whole, Move(Act(0, Continue), env));
    var left, pending := Go(run, last, Continue, env), BLANK_EVENT;
    moves, pending := ConcludesAlone(run, interrupted, 0, left, Canceled, env);
    SuspendedFacts(run, left);
    CancelIsAccepted(run, left, pending, env);
  }

  lemma SuspendedFacts(run: RunConfig, moved: Moved)
    requires Consistent(run, moved) && moved.owner.control == Suspended
    requires moved.store.head.Some? && moved.store.head.value.claimSequence == moved.owner.checkpoint.claimSequence
    ensures Bare(moved.owner.checkpoint) == Bare(moved.store.head.value) && moved.store.head.value.ownerID == ""
    ensures moved.store.head.value.status == Interrupted && moved.store.head.value.identity == run.identity
    ensures moved.owner.checkpoint.version > 0 && moved.owner.cursor >= 0 && moved.owner.sequence == moved.owner.cursor
    ensures moved.owner.checkpoint.ownerID == ""
  {
    var store := moved.store;
    assert SameButLaterLease(store.history[|store.history| - 1], store.head.value);
  }

  // ----- taking over -----

  /** Somebody else takes a run over whose owner is gone and which has nothing under way. */
  lemma TakesOver(run: RunConfig, moves: seq<Move>, index: nat, moved: Moved, lease: Time, ownerID: string, env: Env)
    returns (later: seq<Move>, next: nat, after: Moved)
    requires ValidRun(run) && ClockRuns(moves) && Acting(run, moves, index, moved) && Undisturbed(run, moved, lease)
    requires Working(moved.owner.control) && Settled(moved) && moved.owner.checkpoint.payload.resolvedInterrupts == []
    requires ownerID != ""
    requires env.now >= moved.store.head.value.leaseExpiresAt > 0 && !env.fails
    requires 0 < env.work.size <= MAX_PAYLOAD_BYTES
    ensures ClockRuns(later) && Acting(run, later, next, after) && Undisturbed(run, after, env.now + run.leaseDuration)
    ensures after.owner.control == Reconciling && after.owner.progress.None?
    ensures after.store.journal == moved.store.journal
    ensures after.owner.cursor == |after.store.journal|
  {
    hide Push, Created, Execution, Consistent, ClockRuns;
    var version := |moved.store.history|;
    var resume := Move(Resume(version, ownerID, [], []), env);
    later, next := moves + [resume], |Execution(run, moves).owners|;
    ClockRunsOn(moves, resume);
    OneMore(run, moves, resume);
    MayTakeOver(run, moved, lease);
    var candidate := ClaimRecord(run, moved.store.history[version - 1], ownerID, None, env);
    after := Moved(Claimed(moved.store, candidate, version, env.now).store,
      Restored(run, candidate.(version := version + 1), env));
    ClaimIsGranted(run, moved, ownerID, env);
    hide ValidInterruptProgress, ResolutionsFit, Claimed, ClaimRecord, Restored;
    assert Acting(run, later, next, after);
    ActingIsConsistent(run, later, next, after);
  }

  predicate Working(control: Control) {
    control == Starting || control == Loading || control == Resuming || control == Ready
  }

  /** A resume accepts what the owner left. */
  lemma MayTakeOver(run: RunConfig, moved: Moved, lease: Time)
    requires Undisturbed(run, moved, lease) && Working(moved.owner.control) && Settled(moved)
    requires moved.owner.checkpoint.payload.resolvedInterrupts == []
    ensures 1 <= |moved.store.history|
    ensures var head, loaded := moved.store.head.value, moved.store.history[|moved.store.history| - 1];
            && SameButLaterLease(loaded, head) && loaded.status == Running && ValidInterruptProgress(run, loaded)
            && ResolutionsFit(loaded, [], []) && loaded.payload.pendingEvent.None?
            && loaded.payload.interruptProgress.None?
            && loaded.version == |moved.store.history| && loaded.identity == run.identity && loaded.createdAt != 0
            && loaded.claimSequence >= 1 && loaded.confirmedSequence == |moved.store.journal|
            && loaded.payload.eventCursor == loaded.confirmedSequence && loaded.pendingSequence == 0
            && 0 < loaded.payload.work.size <= MAX_PAYLOAD_BYTES
  {
    HoldingFacts(run, moved, lease);
    var head, loaded := moved.store.head.value, moved.store.history[|moved.store.history| - 1];
    assert SameButLaterLease(loaded, head);
    assert head.payload == moved.owner.checkpoint.payload;
    hide BatchShaped, Entry, Stamped;
  }

  lemma ClaimIsGranted(run: RunConfig, moved: Moved, ownerID: string, env: Env)
    requires ValidRun(run) && ownerID != "" && !env.fails && env.now > 0 && 0 < env.work.size <= MAX_PAYLOAD_BYTES
    requires moved.store.head.Some? && 1 <= |moved.store.history| && env.now >= moved.store.head.value.leaseExpiresAt
    requires var head, loaded := moved.store.head.value, moved.store.history[|moved.store.history| - 1];
             && SameButLaterLease(loaded, head) && loaded.status == Running && loaded.createdAt != 0
             && loaded.version == |moved.store.history| && loaded.identity == run.identity && loaded.claimSequence >= 1
             && loaded.payload.pendingEvent.None? && loaded.payload.interruptProgress.None?
             && loaded.confirmedSequence == |moved.store.journal|
             && loaded.payload.eventCursor == loaded.confirmedSequence
             && loaded.pendingSequence == 0 && 0 < loaded.payload.work.size <= MAX_PAYLOAD_BYTES
    ensures var version := |moved.store.history|;
            var candidate := ClaimRecord(run, moved.store.history[version - 1], ownerID, None, env);
            var written := Claimed(moved.store, candidate, version, env.now);
            var after := Moved(written.store, Restored(run, candidate.(version := version + 1), env));
            && written.error.None? && Holds(after, env.now + run.leaseDuration)
            && after.owner.control == Reconciling && after.owner.progress.None?
            && after.store.journal == moved.store.journal
            && after.owner.cursor == |after.store.journal|
  {
  }

  /** A restored run with nothing under way reports that it was. */
  lemma LoadsQuietly(run: RunConfig, world: World, moved: Moved, env: Env, lease: Time)
    requires ValidRun(run) && Quiet(env, lease) && Undisturbed(run, moved, lease) && forall k :: world(k) == env
    requires moved.owner.control == Reconciling && moved.owner.progress.None?
    requires moved.owner.cursor == |moved.store.journal|
    ensures var after := Carried(run, world, moved, 0, 3);
            && Undisturbed(run, after, lease) && after.owner.control == Resuming
            && after.owner.sequence == |moved.store.journal| + 1 == |after.store.journal|
            && moved.store.journal <= after.store.journal
            && after.store.journal[|moved.store.journal|].eventType == CheckpointLoaded
  {
    hide Go, Consistent, Holds;
    var listed := Go(run, moved, Continue, env);
    ListsNothing(run, moved, env, lease);
    GoKeeps(run, moved, env);
    var reported := Go(run, listed, Continue, env);
    ReportsLoaded(run, listed, env, lease);
    GoKeeps(run, listed, env);
    var after := Go(run, reported, Continue, env);
    DeliversLoaded(run, reported, env, lease);
    GoKeeps(run, reported, env);
    assert Carried(run, world, moved, 0, 0) == moved;
    assert Carried(run, world, moved, 0, 1) == listed;
    assert Carried(run, world, moved, 0, 2) == reported;
    assert Carried(run, world, moved, 0, 3) == after;
  }

  lemma ListsNothing(run: RunConfig, moved: Moved, env: Env, lease: Time)
    requires ValidRun(run) && Quiet(env, lease) && Undisturbed(run, moved, lease)
    requires moved.owner.control == Reconciling && moved.owner.progress.None?
    requires moved.owner.cursor == |moved.store.journal|
    ensures var after := Go(run, moved, Continue, env);
            Holds(after, lease) && after.owner == moved.owner.(control := Loading) && after.store == moved.store
  {
    NextPageIs(run, moved.store, moved.owner);
    hide Consistent, NextPage;
  }

  lemma ReportsLoaded(run: RunConfig, moved: Moved, env: Env, lease: Time)
    requires ValidRun(run) && Quiet(env, lease) && Undisturbed(run, moved, lease) && moved.owner.control == Loading
    ensures var after := Go(run, moved, Continue, env);
            && Holds(after, lease) && after.owner.control.Delivering? && after.owner.control.purpose == Load
            && after.owner.sequence == |moved.store.journal| + 1 == |after.store.journal|
            && moved.store.journal <= after.store.journal
            && after.store.journal[|moved.store.journal|].eventType == CheckpointLoaded
  {
    HoldingFacts(run, moved, lease);
    QuietLoad(run, moved, env, lease);
    LoadAccepted(run, moved, env.now);
    var event := Stamp(run, LOADED_EVENT, moved.owner.sequence + 1, env.now);
    StampIsFixpoint(run, LOADED_EVENT, moved.owner.sequence + 1, env.now, env.now);
    StampKeepsType(run, LOADED_EVENT, moved.owner.sequence + 1, env.now);
    EntryIsGenuine(run, event);
    AppendAt(run, moved.store.journal, Entry(run, event));
    hide Consistent, Current, Stamp, Appended, Stamped;
  }

  lemma DeliversLoaded(run: RunConfig, moved: Moved, env: Env, lease: Time)
    requires Quiet(env, lease) && Holds(moved, lease) && moved.owner.control.Delivering?
    requires moved.owner.control.purpose == Load
    ensures var after := Go(run, moved, Continue, env);
            && Holds(after, lease) && after.owner.control == Resuming && after.store == moved.store
            && after.owner.sequence == moved.owner.sequence
  {
    hide Advanced;
  }

  // ----- it stays that way -----

  /** Nothing becomes of an abandoned run: whatever anybody does, it is never resumed nor
      ended, still waits for the same, and its journal does not grow. */
  lemma {:induction false} AbandonedForever(run: RunConfig, moves: seq<Move>, more: seq<Move>)
    requires ValidRun(run) && ClockRuns(moves + more) && Abandoned(Execution(run, moves).store)
    ensures Abandoned(Execution(run, moves + more).store)
    ensures Execution(run, moves + more).store.journal == Execution(run, moves).store.journal
    ensures Execution(run, moves + more).store.head.value.payload.pendingInterrupts
         == Execution(run, moves).store.head.value.payload.pendingInterrupts
    decreases |more|
  {
    hide Execution, Abandoned, Next;
    if more == [] {
      assert moves + more == moves;
    } else {
      var earlier, last := more[..|more| - 1], more[|more| - 1];
      assert moves + more == moves + earlier + [last];
      ClockRanBefore(moves + earlier, last);
      AbandonedForever(run, moves, earlier);
      OneMore(run, moves + earlier, last);
      Reachable(run, moves + earlier);
      NextLeavesAbandoned(run, Execution(run, moves + earlier), last);
    }
  }

  lemma ClockRanBefore(moves: seq<Move>, move: Move)
    requires ClockRuns(moves + [move])
    ensures ClockRuns(moves) && move.env.now > 0
  {
    assert (moves + [move])[|moves|] == move;
    forall i | 0 <= i < |moves|
      ensures moves[i].env.now > 0
    {
      assert (moves + [move])[i] == moves[i];
    }
  }

  ghost predicate LeftAlone(before: RunStore, after: RunStore) {
    && Abandoned(after) && before.head.Some? && after.journal == before.journal
    && after.head.value.payload.pendingInterrupts == before.head.value.payload.pendingInterrupts
  }

  lemma NextLeavesAbandoned(run: RunConfig, system: System, move: Move)
    requires ValidRun(run) && move.env.now > 0 && Invariant(run, system) && Abandoned(system.store)
    ensures LeftAlone(system.store, Next(run, system, move).store)
  {
    match move.what
    case Start(_) =>
    case Resume(_, _, _, _) =>
      AbandonedIsUnresumable(run, system.store);
      hide SoundStore, OwnerOK;
      AbandonedIsRefused(run, system, move);
    case Act(index, action) =>
      if index < |system.owners| && system.owners[index].control != Stopped {
        hide SoundStore;
        OwnerLeavesAbandoned(run, system.store, system.owners[index], action, move.env);
      }
  }

  lemma AbandonedIsRefused(run: RunConfig, system: System, move: Move)
    requires Invariant(run, system) && system.store.head.Some? && Abandoned(system.store) && move.what.Resume?
    requires !ValidInterruptProgress(run, system.store.head.value)
    ensures Next(run, system, move) == system
  {
    hide OwnerOK, Sound, GenuineJournal, Chained, Abandoned, Next, ValidInterruptProgress;
    ResumeIsRefused(run, system, move);
  }

  lemma OwnerLeavesAbandoned(run: RunConfig, store: RunStore, owner: Owner, action: Action, env: Env)
    requires ValidRun(run) && SoundStore(run, store) && OwnerOK(run, store, owner) && owner.control != Stopped
    requires env.now > 0
    requires Abandoned(store)
    ensures LeftAlone(store, Step(run, store, owner, action, env).store)
  {
    if owner.checkpoint.claimSequence < store.head.value.claimSequence {
      hide Step, SoundStore, OwnerOK;
      StepKeeps(run, store, owner, action, env);
    } else {
      DisownedFacts(run, store, owner);
      hide SoundStore, OwnerOK;
      DisownedLeaves(run, store, owner, action, env);
    }
  }

  lemma DisownedFacts(run: RunConfig, store: RunStore, owner: Owner)
    requires OwnerOK(run, store, owner) && owner.control != Stopped && Abandoned(store)
    requires owner.checkpoint.claimSequence >= store.head.value.claimSequence
    ensures Bare(owner.checkpoint) == Bare(store.head.value)
    ensures owner.control.Releasing? || (owner.control.Journaling? && owner.control.purpose.Conclude?)
  {
    hide Stands, Local;
  }

  /** The append of an unowned run is refused; what is left is to give the lease up. */
  lemma DisownedLeaves(run: RunConfig, store: RunStore, owner: Owner, action: Action, env: Env)
    requires Abandoned(store) && Bare(owner.checkpoint) == Bare(store.head.value)
    requires owner.control.Releasing? || (owner.control.Journaling? && owner.control.purpose.Conclude?)
    ensures LeftAlone(store, Step(run, store, owner, action, env).store)
  {
    hide Stamp, Entry, Appended;
  }
  /** A run whose head fails the check can never be taken over again. */
  lemma {:induction false} UnresumableStays(run: RunConfig, system: System, resumes: seq<Move>)
    requires WellFormed(system.store) && system.store.head.Some?
    requires !ValidInterruptProgress(run, system.store.head.value)
    requires forall i :: 0 <= i < |resumes| ==> resumes[i].what.Resume?
    ensures Continued(run, system, resumes) == system
  {
    hide Next, WellFormed, ValidInterruptProgress;
    if resumes != [] {
      var last := |resumes| - 1;
      UnresumableStays(run, system, resumes[..last]);
      ResumeIsRefused(run, system, resumes[last]);
    }
  }

  /** The head fails the check, and the claim of any earlier version is refused. */
  lemma ResumeIsRefused(run: RunConfig, system: System, resume: Move)
    requires WellFormed(system.store) && system.store.head.Some?
    requires !ValidInterruptProgress(run, system.store.head.value)
    requires resume.what.Resume?
    ensures Next(run, system, resume) == system
  {
    hide ResolutionsFit;
    var history, version := system.store.history, resume.what.version;
    assert SameButLaterLease(history[|history| - 1], system.store.head.value);
    LeaseDoesNotMatter(run, history[|history| - 1], system.store.head.value);
    hide ValidInterruptProgress;
  }

  lemma LeaseDoesNotMatter(run: RunConfig, kept: Checkpoint, head: Checkpoint)
    requires SameButLaterLease(kept, head)
    ensures ValidInterruptProgress(run, kept) <==> ValidInterruptProgress(run, head)
  {
    hide BatchMatches;
  }

  ghost function Continued(run: RunConfig, system: System, moves: seq<Move>): System {
    if moves == [] then system else Next(run, Continued(run, system, moves[..|moves| - 1]), moves[|moves| - 1])
  }
}
