/** What the versions of a run hold: the work each was written with, and the answers an
    interrupted run was resumed with (workflow/workflow.go). */
module RunVersions {
  import opened Options
  import opened Runlog
  import opened CheckpointStore
  import opened InterruptResolution
  import opened RunProtocol
  import opened RunInvariant
  import opened RunTheorems

  /** The owner only gives its lease back; nothing new is encoded for that. */
  predicate GivesUp(owner: Owner, action: Action) {
    owner.control == Releasing && action == Continue
  }

  /** What a version holds that a move wrote: a save or an ending holds the work of that
      very move, a claim and a lease given back the work of the version before; answers
      come in with the claim of an interrupted version and stay until the next one. */
  ghost predicate WrittenBy(before: System, move: Move, record: Checkpoint) {
    var history := before.store.history;
    match move.what
    case Start(ownerID) =>
      && history == [] && record.payload.work == move.env.work && record.ownerID == ownerID
      && record.payload.pendingInterrupts == [] && record.payload.resolvedInterrupts == []
      && record.payload.pendingEvent.None?
    case Resume(version, ownerID, resolutions, resolved) =>
      1 <= version == |history| && Claims(history[version - 1], record, ownerID, resolutions, resolved)
    case Act(index, action) =>
      && history != [] && index < |before.owners|
      && var owner, earlier := before.owners[index], history[|history| - 1];
         && record.claimSequence == earlier.claimSequence == owner.checkpoint.claimSequence
         && record.payload.work == (if GivesUp(owner, action) then earlier.payload.work else move.env.work)
         && record.payload.resolvedInterrupts == earlier.payload.resolvedInterrupts
         && (MarkedRight(record) || SameMarks(record, earlier))
         && record.confirmedSequence == record.payload.eventCursor
  }

  /** A claim takes over all that was durable. */
  ghost predicate Claims(loaded: Checkpoint, record: Checkpoint, ownerID: string, resolutions: seq<Resolution>,
                         resolved: seq<ResolvedInterrupt>) {
    && record.payload.work == loaded.payload.work && record.status == Running && record.ownerID == ownerID
    && record.claimSequence == loaded.claimSequence + 1 && record.replayStatus == loaded.replayStatus
    && record.confirmedSequence == loaded.confirmedSequence && record.pendingSequence == loaded.pendingSequence
    && record.payload.eventCursor == loaded.payload.eventCursor
    && record.payload.pendingEvent == loaded.payload.pendingEvent
    && record.payload.pendingTerm == loaded.payload.pendingTerm
    && record.payload.interruptProgress == loaded.payload.interruptProgress
    && ResolutionsFit(loaded, resolutions, resolved)
    && record.payload.pendingInterrupts
         == (if loaded.status == Interrupted then [] else loaded.payload.pendingInterrupts)
    && record.payload.resolvedInterrupts
         == (if loaded.status == Interrupted then resolved else loaded.payload.resolvedInterrupts)
  }

  // ----- one step -----

  /** A version saved ahead of a running event is marked as safe to replay exactly if that
      event is the run's start. */
  ghost predicate MarkedRight(record: Checkpoint) {
    record.payload.pendingEvent.Some? && record.payload.pendingTerm.None? && record.payload.interruptProgress.None? ==>
      (record.replayStatus == ReplaySafe <==> record.payload.pendingEvent.value.eventType == WorkflowStarted)
  }

  ghost predicate SameMarks(record: Checkpoint, other: Checkpoint) {
    && record.replayStatus == other.replayStatus && record.payload.pendingEvent == other.payload.pendingEvent
    && record.payload.pendingTerm == other.payload.pendingTerm
    && record.payload.interruptProgress == other.payload.interruptProgress
  }

  /** A step wrote nothing, or one version under the owner's claim with this work. */
  ghost predicate Pushes(before: RunStore, after: RunStore, owner: Owner, work: Work) {
    || after.history == before.history
    || (&& before.head.Some? && before.head.value.claimSequence == owner.checkpoint.claimSequence
        && |after.history| == |before.history| + 1 && before.history <= after.history
        && var record := after.history[|before.history|];
           && record.claimSequence == owner.checkpoint.claimSequence
           && record.payload.work == work
           && record.payload.resolvedInterrupts == owner.checkpoint.payload.resolvedInterrupts
           && (MarkedRight(record) || SameMarks(record, owner.checkpoint)))
  }

  lemma SavePushes(store: RunStore, owner: Owner, record: Checkpoint, env: Env, next: Control, fallback: Control)
    requires record.claimSequence == owner.checkpoint.claimSequence
    requires record.payload.resolvedInterrupts == owner.checkpoint.payload.resolvedInterrupts
    requires MarkedRight(record) || SameMarks(record, owner.checkpoint)
    ensures Pushes(store, Save(store, owner, record, env, next, fallback).store, owner, record.payload.work)
    ensures Save(store, owner, record, env, next, fallback).store.journal == store.journal
  {
  }

  lemma EmitPushes(run: RunConfig, store: RunStore, owner: Owner, event: Event, purpose: Purpose, env: Env)
    ensures Emit(run, store, owner, event, purpose, env).store.history == store.history
  {
    hide Stamp, Entry, Appended;
  }

  lemma ConfirmPushes(run: RunConfig, store: RunStore, owner: Owner, env: Env)
    requires owner.control.Confirming?
    ensures Pushes(store, Proceed(run, store, owner, env).store, owner, env.work)
  {
    hide Save, Pushes;
    var event := owner.control.event;
    match owner.control.purpose
    case Observe => NothingPushed(store, owner, env.work);
    case Load => NothingPushed(store, owner, env.work);
    case Advance =>
      SavePushes(store, owner, SaveRecord(run, owner, None, None, ReplayStatusFor(event.eventType), env), env, Ready,
                 Ready);
    case Begin =>
      SavePushes(store, owner, SaveRecord(run, owner, None, None, ReplayStatusFor(event.eventType), env), env, Ready,
                 Stopped);
    case Batch =>
      SavePushes(store, owner, SaveRecord(run, owner, None, None, owner.replayStatus, env), env, Interrupting, Stuck);
    case Conclude(outcome) =>
      SavePushes(store, owner, ClosingRecord(owner, Ended(outcome), owner.progress, env), env, Stopped, Stopped);
    case Replay(term) =>
      if term.Some? {
        SavePushes(store, owner, ClosingRecord(owner, Ended(term.value), owner.progress, env), env, Stopped, Stopped);
      } else {
        SavePushes(store, owner, SaveRecord(run, owner, None, None, owner.replayStatus, env), env,
          Reconciling, Stopped);
      }
  }

  lemma NothingPushed(store: RunStore, owner: Owner, work: Work)
    ensures Pushes(store, store, owner, work)
  {
  }

  lemma AttemptPushes(run: RunConfig, store: RunStore, owner: Owner, event: Event, env: Env)
    ensures Pushes(store, BeginAttempt(run, store, owner, event, env).store, owner, env.work)
  {
    hide Save, Pushes;
    var pending := Stamp(run, event, owner.sequence + 1, env.now);
    SavePushes(store, owner, SaveRecord(run, owner, Some(pending), None, ReplayStatusFor(event.eventType), env), env,
               Journaling(pending, Begin), Stopped);
  }

  lemma InterruptPushes(run: RunConfig, store: RunStore, owner: Owner, env: Env)
    ensures Pushes(store, InterruptNext(run, store, owner, env).store, owner, env.work)
  {
    hide Save, Pushes;
    NothingPushed(store, owner, env.work);
    if owner.progress.Some? {
      var batch := owner.progress.value;
      if 0 <= batch.next < |batch.events| {
        var event := batch.events[batch.next];
        SavePushes(store, owner, SaveRecord(run, owner, Some(event), None, owner.replayStatus, env), env,
                   Journaling(event, Batch), Stuck);
      } else {
        var cleared := owner.(progress := None);
        SavePushes(store, cleared, ClosingRecord(cleared, Interrupted, None, env), env, Suspended, Stuck);
        SamePushes(store,
          Save(store, cleared, ClosingRecord(owner, Interrupted, None, env), env, Suspended, Stuck).store,
                   cleared, owner, env.work);
      }
    }
  }

  lemma SamePushes(before: RunStore, after: RunStore, one: Owner, other: Owner, work: Work)
    requires Pushes(before, after, one, work) && other.checkpoint == one.checkpoint
    ensures Pushes(before, after, other, work)
  {
  }

  lemma ProceedPushes(run: RunConfig, store: RunStore, owner: Owner, env: Env)
    ensures Pushes(store, Proceed(run, store, owner, env).store, owner,
                   if owner.control == Releasing then owner.checkpoint.payload.work else env.work)
  {
    hide Save, Pushes, Emit, SaveRecord, BeginAttempt, InterruptNext, Confirm;
    NothingPushed(store, owner, env.work);
    match owner.control
    case Starting => AttemptPushes(run, store, owner, AttemptEvent(run, false), env);
    case Resuming => AttemptPushes(run, store, owner, AttemptEvent(run, true), env);
    case Loading => EmittedPushes(run, store, owner, LOADED_EVENT, Load, env);
    case Journaling(event, purpose) => EmittedPushes(run, store, owner, event, purpose, env);
    case Confirming(_, _) => ConfirmPushes(run, store, owner, env);
    case ReplayingPage(page, full) =>
      if page == [] {
        PagePushes(run, store, owner, full, env);
      }
    case Interrupting => InterruptPushes(run, store, owner, env);
    case Releasing => SavePushes(store, owner, ReleaseRecord(owner, env), env, Stopped, Stopped);
    case _ =>
  }

  lemma PagePushes(run: RunConfig, store: RunStore, owner: Owner, full: bool, env: Env)
    ensures Pushes(store, ReplayPage(run, store, owner, [], full, env).store, owner, env.work)
  {
    hide Save, Pushes;
    SavePushes(store, owner, SaveRecord(run, owner, None, None, owner.replayStatus, env), env,
               if full then Reconciling else Recovered(owner), Stopped);
  }

  lemma EmittedPushes(run: RunConfig, store: RunStore, owner: Owner, event: Event, purpose: Purpose, env: Env)
    ensures Pushes(store, Emit(run, store, owner, event, purpose, env).store, owner, env.work)
  {
    hide Emit;
    EmitPushes(run, store, owner, event, purpose, env);
  }

  lemma StepPushes(run: RunConfig, store: RunStore, owner: Owner, action: Action, env: Env)
    ensures Pushes(store, Step(run, store, owner, action, env).store, owner,
                   if GivesUp(owner, action) then owner.checkpoint.payload.work else env.work)
  {
    hide Save, Pushes, Emit, Proceed, Renewed, Stamp;
    NothingPushed(store, owner, env.work);
    NothingPushed(store, owner, owner.checkpoint.payload.work);
    match action
    case BeginAdvance(event) =>
      var pending := Stamp(run, event, owner.sequence + 1, env.now);
      StampKeepsType(run, event, owner.sequence + 1, env.now);
      SavePushes(store, owner, SaveRecord(run, owner, Some(pending), None, ReplayStatusFor(event.eventType), env), env,
                 Journaling(pending, Advance), Ready);
    case BeginConclude(outcome, event) =>
      var pending := Stamp(run, event, owner.sequence + 1, env.now);
      SavePushes(store, owner, SaveRecord(run, owner, Some(pending), Some(outcome), owner.replayStatus, env), env,
                 Journaling(pending, Conclude(outcome)), Stopped);
    case EmitObserved(event) => EmittedPushes(run, store, owner, event, Observe, env);
    case BeginInterrupts(_, _) =>
    case Continue => ProceedPushes(run, store, owner, env);
    case Renew => RenewPushes(run, store, owner, env);
    case Crash =>
  }

  lemma StampKeepsType(run: RunConfig, event: Event, sequence: int, now: Time)
    ensures Stamp(run, event, sequence, now).eventType == event.eventType
  {
  }

  lemma RenewPushes(run: RunConfig, store: RunStore, owner: Owner, env: Env)
    ensures Pushes(store, Step(run, store, owner, Renew, env).store, owner, env.work)
  {
  }

  // ----- one move -----

  /** The move added one version at most, and that one holds what it should. */
  ghost predicate Writes(before: System, move: Move, after: System) {
    || after.store.history == before.store.history
    || (&& |after.store.history| == |before.store.history| + 1 && before.store.history <= after.store.history
        && WrittenBy(before, move, after.store.history[|before.store.history|]))
  }

  lemma HeadIsLast(run: RunConfig, store: RunStore)
    requires SoundStore(run, store)
    ensures store.head.None? <==> store.history == []
    ensures store.head.Some? ==>
      var kept, head := store.history[|store.history| - 1], store.head.value;
      && head == kept.(leaseExpiresAt := head.leaseExpiresAt) && kept.version == |store.history|
      && kept.confirmedSequence == kept.payload.eventCursor
  {
    hide GenuineJournal, Chained, Resumable;
  }

  lemma StartWrites(run: RunConfig, system: System, ownerID: string, env: Env)
    requires ValidRun(run) && Invariant(run, system)
    ensures Writes(system, Move(Start(ownerID), env), Next(run, system, Move(Start(ownerID), env)))
  {
    HeadIsLast(run, system.store);
    hide Invariant, Step;
  }

  /** A resume that changes the store claimed a version whose resolutions fit. */
  lemma ResumeClaims(run: RunConfig, system: System, version: int, ownerID: string, resolutions: seq<Resolution>,
                     resolved: seq<ResolvedInterrupt>, env: Env)
    requires 1 <= version <= |system.store.history|
    ensures var after := Next(run, system, Move(Resume(version, ownerID, resolutions, resolved), env)).store;
            var loaded := system.store.history[version - 1];
            var answers := if loaded.status == Interrupted then Some(resolved) else None;
            var claimed := Claimed(system.store, ClaimRecord(run, loaded, ownerID, answers, env), version, env.now);
            after == system.store
              || (ResolutionsFit(loaded, resolutions, resolved) && claimed.error.None? && after == claimed.store)
  {
    hide ClaimRecord, Claimed, ResolutionsFit, ValidInterruptProgress, Restored, Step;
  }

  lemma ResumeWrites(run: RunConfig, system: System, version: int, ownerID: string, resolutions: seq<Resolution>,
                     resolved: seq<ResolvedInterrupt>, env: Env)
    requires ValidRun(run) && Invariant(run, system)
    ensures var move := Move(Resume(version, ownerID, resolutions, resolved), env);
            Writes(system, move, Next(run, system, move))
  {
    hide Invariant, ResolutionsFit, Writes, Claims, Claimed, ClaimRecord, SoundStore;
    if 1 <= version <= |system.store.history| {
      var loaded := system.store.history[version - 1];
      var answers := if loaded.status == Interrupted then Some(resolved) else None;
      ResumeClaims(run, system, version, ownerID, resolutions, resolved, env);
      var after, candidate := Next(run, system, Move(Resume(version, ownerID, resolutions, resolved), env)),
                              ClaimRecord(run, loaded, ownerID, answers, env);
      hide Next;
      InvariantStore(run, system);
      ClaimPushes(run, system.store, candidate, version, env.now);
      if after.store == system.store {
        NothingWritten(system, Move(Resume(version, ownerID, resolutions, resolved), env), after);
      } else {
        CandidateClaims(run, loaded, after.store.history[version], ownerID, resolutions, resolved, env);
        ClaimIsWritten(system, version, ownerID, resolutions, resolved, env, after);
      }
    } else {
      NothingWritten(system, Move(Resume(version, ownerID, resolutions, resolved), env), system);
    }
  }

  lemma InvariantStore(run: RunConfig, system: System)
    requires Invariant(run, system)
    ensures SoundStore(run, system.store)
  {
  }

  lemma NothingWritten(before: System, move: Move, after: System)
    requires after.store == before.store
    ensures Writes(before, move, after)
  {
  }

  lemma ClaimIsWritten(before: System, version: int, ownerID: string, resolutions: seq<Resolution>,
                       resolved: seq<ResolvedInterrupt>, env: Env, after: System)
    requires 1 <= version == |before.store.history| && |after.store.history| == version + 1
    requires before.store.history <= after.store.history
    requires Claims(before.store.history[version - 1], after.store.history[version], ownerID, resolutions, resolved)
    ensures Writes(before, Move(Resume(version, ownerID, resolutions, resolved), env), after)
  {
    hide Claims;
  }

  lemma CandidateClaims(run: RunConfig, loaded: Checkpoint, record: Checkpoint, ownerID: string,
                        resolutions: seq<Resolution>, resolved: seq<ResolvedInterrupt>, env: Env)
    requires ResolutionsFit(loaded, resolutions, resolved)
    requires var answers := if loaded.status == Interrupted then Some(resolved) else None;
             record == ClaimRecord(run, loaded, ownerID, answers, env).(
               version := record.version, leaseExpiresAt := record.leaseExpiresAt, leaseDuration := 0)
    ensures Claims(loaded, record, ownerID, resolutions, resolved)
  {
  }

  lemma ClaimPushes(run: RunConfig, store: RunStore, candidate: Checkpoint, version: int, now: Time)
    requires SoundStore(run, store)
    ensures Claimed(store, candidate, version, now).error.None? ==>
      var after := Claimed(store, candidate, version, now).store;
            && store.head.Some? && version == |store.history| && |after.history| == version + 1
            && store.history <= after.history
            && after.history[version]
                 == candidate.(version := version + 1, leaseExpiresAt := after.history[version].leaseExpiresAt,
                               leaseDuration := 0)
  {
    HeadIsLast(run, store);
    hide SoundStore;
  }

  lemma ActWrites(run: RunConfig, system: System, index: nat, action: Action, env: Env)
    requires ValidRun(run) && env.now > 0 && Invariant(run, system)
    ensures Writes(system, Move(Act(index, action), env), Next(run, system, Move(Act(index, action), env)))
  {
    hide Invariant, Pushes, Step, SoundStore, OwnerOK, HoldsLast;
    if index < |system.owners| && system.owners[index].control != Stopped {
      hide Writes;
      var after := Next(run, system, Move(Act(index, action), env));
      assert after.store == Step(run, system.store, system.owners[index], action, env).store;
      StepPushes(run, system.store, system.owners[index], action, env);
      ActKeeps(run, system, index, action, env);
      SoundOwner(run, system, index);
      SoundSystem(run, after);
      hide Next;
      HoldsLastPayload(run, system.store, system.owners[index]);
      HeadIsLast(run, system.store);
      HeadIsLast(run, after.store);
      PushedIsWritten(system, index, action, env, after);
    }
  }

  lemma SoundSystem(run: RunConfig, system: System)
    requires Invariant(run, system)
    ensures SoundStore(run, system.store)
  {
    hide SoundStore, OwnerOK;
  }

  lemma SoundOwner(run: RunConfig, system: System, index: nat)
    requires Invariant(run, system) && index < |system.owners|
    ensures SoundStore(run, system.store) && OwnerOK(run, system.store, system.owners[index])
  {
    hide SoundStore, OwnerOK;
  }

  lemma PushedIsWritten(before: System, index: nat, action: Action, env: Env, after: System)
    requires index < |before.owners| && (before.store.head.None? <==> before.store.history == [])
    requires var owner := before.owners[index];
      Pushes(before.store, after.store, owner,
             if GivesUp(owner, action) then owner.checkpoint.payload.work else env.work)
    requires before.store.head.Some? ==> HoldsLast(before.store, before.owners[index])
    requires after.store.history != [] ==>
      var last := after.store.history[|after.store.history| - 1]; last.confirmedSequence == last.payload.eventCursor
    ensures Writes(before, Move(Act(index, action), env), after)
  {
    hide MarkedRight;
  }

  /** An owner of the current claim has the last version in hand. */
  ghost predicate HoldsLast(store: RunStore, owner: Owner)
    requires store.head.Some?
  {
    owner.checkpoint.claimSequence == store.head.value.claimSequence ==>
      && store.history != []
      && owner.checkpoint.payload == store.history[|store.history| - 1].payload
      && owner.checkpoint.replayStatus == store.history[|store.history| - 1].replayStatus
      && owner.checkpoint.claimSequence == store.history[|store.history| - 1].claimSequence
  }

  lemma HoldsLastPayload(run: RunConfig, store: RunStore, owner: Owner)
    requires SoundStore(run, store) && OwnerOK(run, store, owner) && owner.control != Stopped
    ensures HoldsLast(store, owner)
  {
    hide Stands, Local, GenuineJournal, Chained, Resumable, Sound;
  }

  lemma NextWrites(run: RunConfig, system: System, move: Move)
    requires ValidRun(run) && move.env.now > 0 && Invariant(run, system)
    ensures Writes(system, move, Next(run, system, move))
  {
    hide Invariant, Writes, Next;
    match move.what
    case Start(ownerID) => StartWrites(run, system, ownerID, move.env);
    case Resume(version, ownerID, resolutions, resolved) =>
      ResumeWrites(run, system, version, ownerID, resolutions, resolved, move.env);
    case Act(index, action) => ActWrites(run, system, index, action, move.env);
  }

  // ----- over a whole run -----

  /** Each version of a run was written by one of its moves, and holds what that move was
      given: the work of a save or an ending is the move's own, a claim keeps the work of
      the version it was made on. */
  lemma {:induction false} EveryVersionIsWritten(run: RunConfig, moves: seq<Move>, version: nat) returns (at: nat)
    requires ValidRun(run) && ClockRuns(moves) && 1 <= version <= |Execution(run, moves).store.history|
    ensures at < |moves|
      && Execution(run, moves[..at]).store.history == Execution(run, moves).store.history[..version - 1]
    ensures Execution(run, moves[..at + 1]).store.history == Execution(run, moves).store.history[..version]
    ensures WrittenBy(Execution(run, moves[..at]), moves[at], Execution(run, moves).store.history[version - 1])
  {
    hide WrittenBy, Invariant, Next;
    var last := |moves| - 1;
    var before := Execution(run, moves[..last]);
    Reachable(run, moves[..last]);
    NextWrites(run, before, moves[last]);
    assert moves[..last + 1] == moves;
    if version <= |before.store.history| {
      at := EveryVersionIsWritten(run, moves[..last], version);
      assert moves[..last][..at] == moves[..at] && moves[..last][..at + 1] == moves[..at + 1];
    } else {
      at := last;
    }
  }

  /** A version after an interrupted one, up to the next interruption. */
  ghost predicate Answering(history: seq<Checkpoint>, interrupted: nat, later: nat) {
    && interrupted + 1 <= later < |history| && history[interrupted].status == Interrupted
    && history[interrupted + 1].claimSequence > history[interrupted].claimSequence
    && (forall i :: interrupted < i < later ==> history[i].status != Interrupted)
  }

  /** The answers fit what the interrupted version waited for. */
  ghost predicate Answered(interrupted: Checkpoint, later: Checkpoint) {
    exists resolutions ::
      Exact(interrupted.payload.pendingInterrupts, resolutions)
        && Answers(interrupted.payload.pendingInterrupts, resolutions, later.payload.resolvedInterrupts)
  }

  /** Once an interrupted run has been resumed, all later versions up to the next time an
      interrupted one is resumed hold exactly the answers to what it waited for. */
  lemma {:induction false} AnswersStay(run: RunConfig, moves: seq<Move>, interrupted: nat, later: nat)
    requires ValidRun(run) && ClockRuns(moves) && Answering(Execution(run, moves).store.history, interrupted, later)
    ensures Answered(Execution(run, moves).store.history[interrupted], Execution(run, moves).store.history[later])
    decreases later
  {
    hide Execution, Exact, Answers, ReplayAllowed;
    var history := Execution(run, moves).store.history;
    var at := EveryVersionIsWritten(run, moves, later + 1);
    assert history[..later][later - 1] == history[later - 1];
    if later > interrupted + 1 {
      AnswersStay(run, moves, interrupted, later - 1);
    }
  }

  /** Every version is marked right. */
  lemma {:induction false} ReplaySafeIff(run: RunConfig, moves: seq<Move>, version: nat)
    requires ValidRun(run) && ClockRuns(moves) && 1 <= version <= |Execution(run, moves).store.history|
    ensures MarkedRight(Execution(run, moves).store.history[version - 1])
    decreases version
  {
    hide Execution, ResolutionsFit;
    var history := Execution(run, moves).store.history;
    var at := EveryVersionIsWritten(run, moves, version);
    if version > 1 {
      assert history[..version - 1][version - 2] == history[version - 2];
      ReplaySafeIff(run, moves, version - 1);
    }
  }
}
