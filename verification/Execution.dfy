/** One execution of a run: the commit, interrupt and recovery procedures of
    workflow/workflow.go over the store, each proved to be a run of the steps of
    the protocol machine. */
module Execution {
  import opened Options
  import opened Runlog
  import opened CheckpointStore
  import opened StoreSafety
  import opened InterruptResolution
  import opened RunProtocol
  import opened RunInvariant
  import opened RunSafety
  import opened RunTheorems
  import opened RunProgress

  /** One more version, which holds this work. */
  ghost predicate Wrote(before: seq<Checkpoint>, after: seq<Checkpoint>, work: Work) {
    |after| == |before| + 1 && before <= after && after[|before|].payload.work == work
  }

  lemma StoringWrites(store: RunStore, record: Checkpoint, version: int, terminal: bool, now: Time)
    ensures var written := Stored(store, record, version, terminal, now);
            written.error.None? ==>
              Wrote(store.history, written.store.history, record.payload.work)
                && written.store.head == Some(written.store.history[|store.history|])
  {
  }

  ghost predicate WroteTwice(before: seq<Checkpoint>, after: seq<Checkpoint>, first: Work, second: Work) {
    && |after| == |before| + 2 && before <= after
    && after[|before|].payload.work == first && after[|before| + 1].payload.work == second
  }

  lemma WrittenTwice(before: seq<Checkpoint>, between: seq<Checkpoint>, after: seq<Checkpoint>, first: Work,
                     second: Work)
    requires Wrote(before, between, first) && Wrote(between, after, second)
    ensures WroteTwice(before, after, first, second)
  {
  }

  class WorkflowExecution {
    const run: RunConfig
    const store: MemoryStore
    const world: World
    var calls: nat
    var checkpoint: Checkpoint
    var sequence: int
    var eventCursor: int
    var sinkFailed: bool
    var interrupts: seq<PendingInterrupt>
    var interruptProgress: Option<InterruptProgress>
    var replayStatus: ReplayStatus
    ghost var control: Control
    ghost var start: int
    ghost var offers: seq<int>

    ghost predicate Valid()
      reads this, store, store.log
    {
      && store.Valid() && run.identity.runID != "" && checkpoint.identity == run.identity
      && (sinkFailed ==> control == Releasing)
    }

    /** The run's durable state, and this execution as an owner of it. */
    ghost function Self(): Moved
      reads this, store, store.log
    {
      Moved(store.Run(run.identity.runID),
            Owner(checkpoint, sequence, eventCursor, interrupts, interruptProgress, replayStatus, control,
              start, offers))
    }

    /** The versions the store holds of this run; the last one is its head. */
    ghost function Versions(): seq<Checkpoint>
      reads store`history
    {
      if run.identity.runID in store.history then store.history[run.identity.runID] else []
    }

    ghost predicate HeadIs(record: Checkpoint)
      reads store`records
    {
      run.identity.runID in store.records && store.records[run.identity.runID] == record
    }

    /** Takes over a run from the record its claim left, with what that record holds. */
    constructor (run: RunConfig, store: MemoryStore, world: World, claimed: Checkpoint)
      requires store.Valid() && claimed.identity == run.identity && run.identity.runID != ""
      ensures Valid() && !sinkFailed && calls == 1
      ensures this.run == run && this.store == store && this.world == world
      ensures Self() == Moved(store.Run(run.identity.runID), Restored(run, claimed, world(0)))
    {
      var payload := claimed.payload;
      this.run, this.store, this.world, calls := run, store, world, 1;
      checkpoint, sequence, eventCursor, sinkFailed := claimed, payload.eventCursor, payload.eventCursor, false;
      interrupts, interruptProgress, replayStatus :=
        payload.pendingInterrupts, payload.interruptProgress, claimed.replayStatus;
      control, start, offers := Restored(run, claimed, world(0)).control, payload.eventCursor, [];
    }

    // ----- writing checkpoints -----

    /** Writes a record under compare-and-swap and keeps it when the store took it. */
    method WriteCheckpoint(record: Checkpoint, env: Env, ghost next: Control,
                           ghost fallback: Control) returns (ok: bool)
      requires Valid() && record.identity == run.identity && !sinkFailed
      modifies this`checkpoint, this`control, store
      ensures Valid() && store.log.records == old(store.log.records)
      ensures Self() == Save(old(Self()).store, old(Self()).owner, record, env, next, fallback)
      ensures control == if ok then next else fallback
      ensures checkpoint == if ok then record.(version := record.version + 1) else old(checkpoint)
      ensures if ok then Wrote(old(Versions()), Versions(), record.payload.work) && HeadIs(Versions()[|Versions()| - 1])
              else Versions() == old(Versions())
    {
      RefusalChangesNothing(Self().store, Call(DoWrite(record, record.version, Terminal(record.status)), env.now));
      StoringWrites(Self().store, record, record.version, Terminal(record.status), env.now);
      var error := store.Write(env.fails, record, record.version, Terminal(record.status), env.now);
      ok := error.None?;
      hide Stored;
      if ok {
        checkpoint := record.(version := record.version + 1);
      }
      control := if ok then next else fallback;
    }

    /** Saves the run as it stands, with the event under way if there is one. */
    method SaveCheckpoint(pending: Option<Event>, term: Option<Outcome>, status: ReplayStatus, ghost next: Control,
                          ghost fallback: Control)
      returns (ok: bool)
      requires Valid() && !sinkFailed
      modifies this`checkpoint, this`control, this`calls, store
      ensures Valid() && calls == old(calls) + 1
      ensures Self() == Save(old(Self()).store, old(Self()).owner,
                             SaveRecord(run, old(Self()).owner, pending, term, status, world(old(calls))),
                               world(old(calls)), next, fallback)
      ensures control == if ok then next else fallback
      ensures checkpoint.version == old(checkpoint).version + if ok then 1 else 0
      ensures checkpoint.status == if ok then Running else old(checkpoint).status
      ensures ok ==> checkpoint.confirmedSequence == eventCursor && checkpoint.payload.pendingEvent == pending
      ensures if ok then Wrote(old(Versions()), Versions(), world(old(calls)).work)
        && HeadIs(Versions()[|Versions()| - 1])
              else Versions() == old(Versions())
    {
      hide MemoryStore.Valid, MemoryStore.Run, Go, Carried;
      var env := world(calls);
      calls := calls + 1;
      var record := checkpoint.(
        payload := checkpoint.payload.(
          work := env.work, ownerID := checkpoint.ownerID, claimSequence := checkpoint.claimSequence,
          leaseExpiresAt := env.now + LeaseOf(run), eventCursor := eventCursor, pendingEvent := pending,
          pendingTerm := term,
          pendingInterrupts := interrupts, interruptProgress := interruptProgress),
        status := Running,
        leaseExpiresAt := env.now + LeaseOf(run),
        leaseDuration := run.leaseDuration,
        confirmedSequence := eventCursor,
        pendingSequence := SequenceOf(pending),
        replayStatus := status,
        updatedAt := env.now);
      ok := WriteCheckpoint(record, env, next, fallback);
    }

    /** Ends the ownership: the run is ended or interrupted. */
    method CloseCheckpoint(status: Status, ghost next: Control, ghost fallback: Control) returns (ok: bool)
      requires Valid() && !sinkFailed
      modifies this`checkpoint, this`control, this`calls, store
      ensures Valid() && calls == old(calls) + 1
      ensures Self() == Save(old(Self()).store, old(Self()).owner,
                             ClosingRecord(old(Self()).owner, status, interruptProgress, world(old(calls))),
                               world(old(calls)), next, fallback)
      ensures control == if ok then next else fallback
      ensures checkpoint.status == if ok then status else old(checkpoint).status
      ensures ok ==> checkpoint.confirmedSequence == eventCursor
      ensures if ok then Wrote(old(Versions()), Versions(), world(old(calls)).work)
        && HeadIs(Versions()[|Versions()| - 1])
              else Versions() == old(Versions())
    {
      hide MemoryStore.Valid, MemoryStore.Run, Go, Carried;
      var env := world(calls);
      calls := calls + 1;
      var record := checkpoint.(
        payload := checkpoint.payload.(
          work := env.work, ownerID := "", leaseExpiresAt := 0, eventCursor := eventCursor,
          pendingEvent := None, pendingTerm := None,
          pendingInterrupts := interrupts, interruptProgress := interruptProgress),
        status := status, ownerID := "", leaseExpiresAt := 0, leaseDuration := 0,
        confirmedSequence := eventCursor, pendingSequence := 0,
        replayStatus := replayStatus, updatedAt := env.now);
      ok := WriteCheckpoint(record, env, next, fallback);
    }

    /** Gives the lease back after a failed sink or log. */
    method ReleaseCheckpointLease() returns (ok: bool)
      requires Valid() && control == Releasing
      modifies this`checkpoint, this`control, this`sinkFailed, this`calls, store
      ensures Valid() && calls == old(calls) + 1
      ensures Self() == Go(run, old(Self()), Continue, world(old(calls)))
    {
      hide Emit, Save, Stamp, MemoryStore.Valid, MemoryStore.Run;
      var env := world(calls);
      calls, sinkFailed := calls + 1, false;
      var record := checkpoint.(
        payload := checkpoint.payload.(ownerID := "", leaseExpiresAt := 0),
        ownerID := "", leaseExpiresAt := 0, leaseDuration := 0, updatedAt := env.now);
      ok := WriteCheckpoint(record, env, Stopped, Stopped);
    }

    // ----- emitting -----

    method AppendRecord(entry: Record, env: Env) returns (error: Option<StoreError>)
      requires Valid() && entry.runID == run.identity.runID
      modifies store.log
      ensures Valid() && Self().owner == old(Self()).owner
      ensures Written(Self().store, error)
           == Attempt(old(Self()).store, env,
             Journaled(old(Self()).store, entry, Fence(checkpoint.ownerID, checkpoint.claimSequence), env.now))
      ensures error.Some? ==> Self().store == old(Self()).store
    {
      RefusalChangesNothing(Self().store,
                            Call(DoAppend(entry, Fence(checkpoint.ownerID, checkpoint.claimSequence)), env.now));
      error := store.AppendFenced(env.fails, entry, Fence(checkpoint.ownerID, checkpoint.claimSequence), env.now);
    }

    /** Records how an append came out. */
    method SettleAppend(error: Option<StoreError>, stamped: Event, purpose: Purpose)
      requires Valid() && !sinkFailed
      modifies this`sequence, this`sinkFailed, this`control
      ensures Valid()
      ensures Self()
        == Emitted(old(Self()).store, old(Self()).owner, stamped, purpose, Written(old(Self()).store, error))
      ensures control == if error.None? then Delivering(stamped, purpose) else if error == Some(LeaseLost) then Stopped
        else Releasing
      ensures sequence == old(sequence) + 1 && (sinkFailed <==> control == Releasing)
    {
      hide MemoryStore.Valid, MemoryStore.Run, Go, Carried;
      sequence := sequence + 1;
      sinkFailed := error.Some? && error != Some(LeaseLost);
      control := if error.None? then Delivering(stamped, purpose) else if error == Some(LeaseLost) then Stopped
        else Releasing;
    }

    /** Appends a stamped event under the fence; a refusal other than a lost lease
        marks the execution as failed. */
    method AppendFencedEvent(stamped: Event, purpose: Purpose, env: Env) returns (ok: bool)
      requires Valid() && !sinkFailed && stamped.runID == run.identity.runID
      modifies this`sequence, this`sinkFailed, this`control, store.log
      ensures Valid() && sequence == old(sequence) + 1
      ensures Self() == Emitted(old(Self()).store, old(Self()).owner, stamped, purpose,
                Attempt(old(Self()).store, env,
                  Journaled(old(Self()).store, Entry(run, stamped),
                    Fence(checkpoint.ownerID, checkpoint.claimSequence), env.now)))
      ensures ok ==> control == Delivering(stamped, purpose) && !sinkFailed
      ensures !ok ==> control == Stopped || control == Releasing
    {
      hide MemoryStore.Valid, MemoryStore.Run, Go, Carried;
      var entry := Entry(run, stamped);
      assert entry.runID == run.identity.runID;
      hide *;
      var error := AppendRecord(entry, env);
      ok := error.None?;
      SettleAppend(error, stamped, purpose);
    }

    /** Offers the appended event to the sinks; when they accept it the cursor moves
        past it, and so does the batch it belongs to. */
    method DeliverEvent(event: Event, purpose: Purpose) returns (ok: bool)
      requires Valid() && !sinkFailed && control == Delivering(event, purpose)
      modifies this`eventCursor, this`sinkFailed, this`offers, this`interruptProgress, this`control, this`calls
      ensures Valid() && calls == old(calls) + 1
      ensures Self() == Go(run, old(Self()), Continue, world(old(calls)))
      ensures ok ==> control == Delivered(event, purpose) && !sinkFailed
      ensures ok ==> eventCursor == sequence && interruptProgress == Advanced(old(interruptProgress), event, purpose)
      ensures !ok ==> control == Releasing
    {
      hide MemoryStore.Valid, MemoryStore.Run, Go, Carried;
      DeliverIs(run, Self(), event, purpose, world(calls));
      hide Go, Advanced;
      var env := world(calls);
      calls := calls + 1;
      offers := offers + [event.sequence];
      ok := !env.fails;
      if ok {
        eventCursor := sequence;
        interruptProgress := Advanced(interruptProgress, event, purpose);
        control := Delivered(event, purpose);
      } else {
        sinkFailed, control := true, Releasing;
      }
    }

    /** Appends an event and delivers it, for whatever purpose. */
    method EmitLocked(event: Event, purpose: Purpose) returns (ok: bool, ghost stamped: Event)
      requires Valid()
      modifies this`sequence, this`eventCursor, this`sinkFailed, this`offers, this`interruptProgress, this`control,
        this`calls, store.log
      ensures Valid() && stamped.eventType == event.eventType
      ensures old(sinkFailed) ==> !ok && Self() == old(Self()) && calls == old(calls)
      ensures !old(sinkFailed) ==> calls > old(calls)
      ensures !old(sinkFailed) ==>
                Self() == Carried(run, world,
                  Emit(run, old(Self()).store, old(Self()).owner, event, purpose, world(old(calls))),
                    old(calls) + 1, calls)
      ensures ok ==> !sinkFailed && calls == old(calls) + 2 && eventCursor == sequence == old(sequence) + 1
      ensures ok ==> control == Delivered(stamped, purpose)
      ensures ok ==> interruptProgress == Advanced(old(interruptProgress), stamped, purpose)
      ensures !ok ==> control == Stopped || control == Releasing
    {
      assert sinkFailed ==> control == Releasing;
      hide *;
      if sinkFailed {
        return false, event;
      }
      ok, stamped := EmitStamped(event, purpose);
    }

    method EmitStamped(event: Event, purpose: Purpose) returns (ok: bool, ghost stamped: Event)
      requires Valid() && !sinkFailed
      modifies this`sequence, this`eventCursor, this`sinkFailed, this`offers, this`interruptProgress, this`control,
        this`calls, store.log
      ensures Valid() && stamped.eventType == event.eventType && calls > old(calls)
      ensures Self() == Carried(run, world,
                Emit(run, old(Self()).store, old(Self()).owner, event, purpose, world(old(calls))),
                  old(calls) + 1, calls)
      ensures ok ==> !sinkFailed && calls == old(calls) + 2 && eventCursor == sequence == old(sequence) + 1
      ensures ok ==> control == Delivered(stamped, purpose)
      ensures ok ==> interruptProgress == Advanced(old(interruptProgress), stamped, purpose)
      ensures !ok ==> control == Stopped || control == Releasing
    {
      hide MemoryStore.Valid, MemoryStore.Run, Emit, Stamp, Carried, Advanced, Delivered, Entry, Emitted, Journaled;
      ghost var begun := Self();
      var env := world(calls);
      calls := calls + 1;
      assert Self() == begun && begun.owner.checkpoint == checkpoint && begun.owner.sequence == sequence && Valid();
      hide *;
      var emitted := Stamp(run, event, sequence + 1, env.now);
      stamped := emitted;
      EmitIs(run, begun, event, purpose, env, stamped);
      ok := AppendFencedEvent(emitted, purpose, env);
      ghost var appended, from := Self(), calls;
      CarriedNowhere(run, world, appended, from);
      if ok {
        CarriedOnce(run, world, appended, from);
        ok := DeliverEvent(emitted, purpose);
      }
    }

    /** Reports something observed while the run goes on; nothing is saved. */
    method EmitEvent(event: Event) returns (ok: bool)
      requires Valid() && (sinkFailed || control == Ready) && Fresh(event) && RunningType(event.eventType)
      modifies this`sequence, this`eventCursor, this`sinkFailed, this`offers, this`interruptProgress, this`control,
        this`calls, store.log
      ensures Valid()
      ensures old(sinkFailed) ==> !ok && Self() == old(Self()) && calls == old(calls)
      ensures !old(sinkFailed) ==>
                Self() == Carried(run, world, Go(run, old(Self()), EmitObserved(event), world(old(calls))),
                  old(calls) + 1, calls)
      ensures ok ==> control == Ready && eventCursor == sequence == old(sequence) + 1 && checkpoint == old(checkpoint)
    {
      hide *;
      if !sinkFailed {
        ObservedIsEmit(event);
      }
      ghost var stamped;
      ok, stamped := EmitLocked(event, Observe);
      DeliveredIs(stamped, Observe);
    }

    /** Reports that the run was restored. */
    method EmitLoaded() returns (ok: bool)
      requires Valid() && !sinkFailed && control == Loading
      modifies this`sequence, this`eventCursor, this`sinkFailed, this`offers, this`interruptProgress, this`control,
        this`calls, store.log
      ensures Valid() && calls > old(calls) && checkpoint == old(checkpoint)
      ensures Self() == Carried(run, world, old(Self()), old(calls), calls)
      ensures ok ==> control == Resuming && !sinkFailed && eventCursor == sequence == old(sequence) + 1
      ensures !ok ==> control == Stopped || control == Releasing
    {
      hide *;
      ghost var begun, from, stamped := Self(), calls, LOADED_EVENT;
      LoadedIsEmit();
      ok, stamped := EmitLocked(LOADED_EVENT, Load);
      DeliveredIs(stamped, Load);
      CarriedFirst(run, world, begun, from, calls);
    }

    lemma LoadedIsEmit()
      requires control == Loading
      ensures Go(run, Self(), Continue, world(calls))
        == Emit(run, Self().store, Self().owner, LOADED_EVENT, Load, world(calls))
    {
      hide Emit, MemoryStore.Run;
    }

    lemma ObservedIsEmit(event: Event)
      requires control == Ready && Fresh(event) && RunningType(event.eventType)
      ensures Go(run, Self(), EmitObserved(event), world(calls))
        == Emit(run, Self().store, Self().owner, event, Observe, world(calls))
    {
      hide Emit, MemoryStore.Run;
    }

    lemma PendingIsEmit(event: Event, purpose: Purpose)
      requires control == Journaling(event, purpose)
      ensures Go(run, Self(), Continue, world(calls))
        == Emit(run, Self().store, Self().owner, event, purpose, world(calls))
    {
      hide Emit, MemoryStore.Run;
    }

    /** Emits the event the run has durably pending. */
    method EmitPending(event: Event, purpose: Purpose) returns (ok: bool, ghost stamped: Event)
      requires Valid() && !sinkFailed && control == Journaling(event, purpose) && purpose != Observe && purpose != Load
      modifies this`sequence, this`eventCursor, this`sinkFailed, this`offers, this`interruptProgress, this`control,
        this`calls, store.log
      ensures Valid() && stamped.eventType == event.eventType && calls >= old(calls)
      ensures Self() == Carried(run, world, old(Self()), old(calls), calls)
      ensures ok ==> !sinkFailed && calls == old(calls) + 2 && eventCursor == sequence == old(sequence) + 1
      ensures ok ==>
        control == Confirming(stamped, purpose)
          && interruptProgress == Advanced(old(interruptProgress), stamped, purpose)
      ensures !ok ==> control == Stopped || control == Releasing
    {
      hide *;
      ghost var begun, from := Self(), calls;
      PendingIsEmit(event, purpose);
      ok, stamped := EmitLocked(event, purpose);
      DeliveredIs(stamped, purpose);
      CarriedFirst(run, world, begun, from, calls);
    }

    // ----- committing -----

    /** Saves the cursor an event moved to, and what the event says about replaying. */
    method ConfirmRunning(ghost event: Event, ghost purpose: Purpose, status: ReplayStatus) returns (ok: bool)
      requires Valid() && !sinkFailed && control == Confirming(event, purpose)
      requires status == ReplayStatusFor(event.eventType)
      requires purpose == Advance || purpose == Begin
      modifies this`checkpoint, this`control, this`calls, this`replayStatus, store
      ensures Valid() && calls == old(calls) + 1 && control == if ok || purpose == Advance then Ready else Stopped
      ensures Self() == Go(run, old(Self()), Continue, world(old(calls)))
      ensures ok ==> checkpoint.confirmedSequence == eventCursor && checkpoint.payload.pendingEvent.None?
      ensures checkpoint.status == if ok then Running else old(checkpoint).status
      ensures ok ==>
        Wrote(old(Versions()), Versions(), world(old(calls)).work) && HeadIs(Versions()[|Versions()| - 1])
    {
      hide MemoryStore.Valid, MemoryStore.Run, Go, Carried;
      ghost var begun, env := Self(), world(calls);
      ConfirmRunningIs(run, begun, event, purpose, env);
      ok := SaveCheckpoint(None, None, status, Ready, if purpose == Advance then Ready else Stopped);
      hide SaveRecord, Save, Go;
      assert Self().owner.checkpoint == checkpoint && begun.owner.checkpoint == old(checkpoint);
      if ok {
        replayStatus := status;
      }
    }

    /** Saves the run with an event pending. */
    method SaveAhead(event: Event, purpose: Purpose) returns (ok: bool, pending: Event)
      requires Valid() && !sinkFailed && MayCommit(run, control, event, purpose)
      modifies this`checkpoint, this`control, this`calls, store
      ensures Valid() && calls == old(calls) + 1 && pending.eventType == event.eventType
      ensures Self() == Go(run, old(Self()), Beginning(event, purpose), world(old(calls)))
      ensures control == if ok then Journaling(pending, purpose) else if purpose == Advance then Ready else Stopped
      ensures checkpoint.status == if ok then Running else old(checkpoint).status
      ensures ok ==> Wrote(old(Versions()), Versions(), world(old(calls)).work)
    {
      hide MemoryStore.Valid, MemoryStore.Run, Go, Carried;
      ghost var begun := Self();
      pending := Stamp(run, event, sequence + 1, world(calls).now);
      BeginningIs(run, begun, event, purpose, world(calls), pending);
      hide *;
      if purpose.Conclude? {
        ok := SaveCheckpoint(Some(pending), Some(purpose.outcome), replayStatus, Journaling(pending, purpose), Stopped);
      } else {
        ok := SaveCheckpoint(Some(pending), None, ReplayStatusFor(event.eventType), Journaling(pending, purpose),
                             if purpose == Advance then Ready else Stopped);
      }
    }

    /** Write-ahead: saves the run with the event pending, appends and delivers the
        event, saves the confirmed cursor. Cut short anywhere, it has made the
        first steps of just that. */
    method CommitRunningEvent(event: Event, purpose: Purpose) returns (ok: bool)
      requires Valid() && (purpose == Advance || purpose == Begin)
      requires sinkFailed || MayCommit(run, control, event, purpose)
      modifies this, store, store.log
      ensures Valid()
      ensures old(sinkFailed) ==> !ok && Self() == old(Self()) && calls == old(calls)
      ensures !old(sinkFailed) ==> calls > old(calls)
      ensures !old(sinkFailed) ==>
                Self() == Carried(run, world, Go(run, old(Self()), Beginning(event, purpose), world(old(calls))),
                  old(calls) + 1, calls)
      ensures ok ==> calls == old(calls) + 4 && control == Ready
      ensures !ok && !old(sinkFailed) && purpose == Begin ==> control == Stopped || control == Releasing
      ensures old(checkpoint).status == Running ==> checkpoint.status == Running
      ensures ok ==>
        checkpoint.confirmedSequence == eventCursor == sequence == old(sequence) + 1
          && checkpoint.payload.pendingEvent.None?
      ensures ok ==>
        WroteTwice(old(Versions()), Versions(), world(old(calls)).work, world(old(calls) + 3).work)
          && HeadIs(Versions()[|Versions()| - 1])
    {
      hide *;
      if sinkFailed {
        return false;
      }
      ghost var from := calls + 1;
      var pending;
      ghost var stamped;
      ok, pending := SaveAhead(event, purpose);
      ghost var saved, ahead := Self(), Versions();
      CarriedNowhere(run, world, saved, from);
      if ok {
        ok, stamped := EmitPending(pending, purpose);
        if ok {
          CarriedMore(run, world, saved, from, calls);
          ok := ConfirmRunning(stamped, purpose, ReplayStatusFor(event.eventType));
        }
      }
      if ok {
        WrittenTwice(old(Versions()), ahead, Versions(), world(old(calls)).work, world(old(calls) + 3).work);
      }
    }

    /** Reports that an attempt at the run starts; only then may it work. */
    method StartAttempt(resumed: bool) returns (ok: bool)
      requires Valid() && (sinkFailed || control == if resumed then Resuming else Starting)
      modifies this, store, store.log
      ensures Valid()
      ensures old(sinkFailed) ==> !ok && Self() == old(Self()) && calls == old(calls)
      ensures !old(sinkFailed) ==> calls > old(calls) && Self() == Carried(run, world, old(Self()), old(calls), calls)
      ensures ok ==> control == Ready
      ensures !ok && !old(sinkFailed) ==> control == Stopped || control == Releasing
      ensures old(checkpoint).status == Running ==> checkpoint.status == Running
      ensures ok ==>
        checkpoint.confirmedSequence == eventCursor == sequence == old(sequence) + 1
          && checkpoint.payload.pendingEvent.None?
    {
      hide *;
      ghost var begun, from := Self(), calls;
      AttemptMayCommit(run, control, resumed, sinkFailed);
      ok := CommitRunningEvent(AttemptEvent(run, resumed), Begin);
      BeginningIsContinue(AttemptEvent(run, resumed));
      if calls > from {
        CarriedFirst(run, world, begun, from, calls);
      }
    }

    /** Announces the outcome durably, appends and delivers the terminal event, and
        ends the run with that outcome. */
    method CommitTerminalEvent(outcome: Outcome, event: Event) returns (ok: bool)
      requires Valid() && (sinkFailed || MayConclude(control)) && Fresh(event)
      requires event.eventType == WorkflowEnded(outcome)
      modifies this, store, store.log
      ensures Valid()
      ensures old(sinkFailed) ==> !ok && Self() == old(Self()) && calls == old(calls)
      ensures !old(sinkFailed) ==> calls > old(calls)
      ensures !old(sinkFailed) ==>
                Self() == Carried(run, world,
                  Go(run, old(Self()), Beginning(event, Conclude(outcome)), world(old(calls))), old(calls) + 1, calls)
      ensures ok ==> calls == old(calls) + 4 && control == Stopped && checkpoint.status == Ended(outcome)
      ensures ok ==> checkpoint.confirmedSequence == eventCursor == sequence == old(sequence) + 1
      ensures ok ==>
        WroteTwice(old(Versions()), Versions(), world(old(calls)).work, world(old(calls) + 3).work)
          && HeadIs(Versions()[|Versions()| - 1])
    {
      hide *;
      ConcludingMayCommit(run, control, outcome, event, sinkFailed);
      if sinkFailed {
        return false;
      }
      ghost var from := calls + 1;
      var pending;
      ghost var stamped;
      ok, pending := SaveAhead(event, Conclude(outcome));
      ghost var saved, ahead := Self(), Versions();
      CarriedNowhere(run, world, saved, from);
      if ok {
        ok, stamped := EmitPending(pending, Conclude(outcome));
        if ok {
          CarriedMore(run, world, saved, from, calls);
          ok := ConfirmEnding(outcome, stamped, Conclude(outcome));
        }
      }
      if ok {
        WrittenTwice(old(Versions()), ahead, Versions(), world(old(calls)).work, world(old(calls) + 3).work);
      }
    }

    method ConfirmEnding(outcome: Outcome, ghost event: Event, ghost purpose: Purpose) returns (ok: bool)
      requires Valid() && !sinkFailed && control == Confirming(event, purpose)
      requires purpose == Conclude(outcome) || purpose == Replay(Some(outcome))
      modifies this`checkpoint, this`control, this`calls, store
      ensures Valid() && calls == old(calls) + 1 && control == Stopped
      ensures Self() == Go(run, old(Self()), Continue, world(old(calls)))
      ensures checkpoint.status == if ok then Ended(outcome) else old(checkpoint).status
      ensures ok ==> checkpoint.confirmedSequence == eventCursor
      ensures ok ==>
        Wrote(old(Versions()), Versions(), world(old(calls)).work) && HeadIs(Versions()[|Versions()| - 1])
    {
      hide MemoryStore.Valid, MemoryStore.Run, Go, Carried;
      ghost var begun := Self();
      ConfirmEndingIs(run, begun, outcome, event, purpose, world(calls));
      hide *;
      ok := CloseCheckpoint(Ended(outcome), Stopped, Stopped);
    }

    method ConfirmSaved(ghost event: Event, ghost purpose: Purpose, ghost next: Control,
                        ghost fallback: Control) returns (ok: bool)
      requires Valid() && !sinkFailed && control == Confirming(event, purpose)
      requires (purpose == Batch && next == Interrupting && fallback == Stuck)
            || (purpose == Replay(None) && next == Reconciling && fallback == Stopped)
      modifies this`checkpoint, this`control, this`calls, store
      ensures Valid() && calls == old(calls) + 1 && control == if ok then next else fallback
      ensures Self() == Go(run, old(Self()), Continue, world(old(calls)))
      ensures checkpoint.status == if ok then Running else old(checkpoint).status
      ensures ok ==> checkpoint.confirmedSequence == eventCursor
    {
      hide MemoryStore.Valid, MemoryStore.Run, Go, Carried;
      ghost var begun := Self();
      ConfirmSavedIs(run, begun, event, purpose, next, fallback, world(calls));
      hide *;
      ok := SaveCheckpoint(None, None, replayStatus, next, fallback);
    }

    // ----- interrupts -----

    /** Suspends the run on these waits: prepares one event for each and a closing one,
        which reports the request the first interrupt names apart from its list,
          commits them in order and leaves the run interrupted. Waits without an
        identifier, or sharing one, are refused before anything is done. */
    method FinishInterrupt(waits: seq<PendingInterrupt>, first: InterruptRequest) returns (ok: bool)
      requires Valid() && !sinkFailed && control == Ready && waits != []
      modifies this, store, store.log
      ensures Valid()
      ensures !DistinctPending(waits) ==> !ok && Self() == old(Self()) && calls == old(calls)
      ensures DistinctPending(waits) ==> calls > old(calls)
      ensures DistinctPending(waits) ==>
                Self() == Carried(run, world, Go(run, old(Self()), BeginInterrupts(waits, first), world(old(calls))),
                  old(calls) + 1, calls)
      ensures ok ==> control == Suspended && checkpoint.status == Interrupted
      ensures ok ==> checkpoint.confirmedSequence == eventCursor && interrupts == waits && interruptProgress.None?
    {
      hide MemoryStore.Valid, MemoryStore.Run, DistinctPending, BatchEvents, Go, Carried;
      ghost var begun := Self();
      var events;
      ok, events := PrepareInterrupts(waits, first, world(calls).now);
      if !ok {
        return;
      }
      interrupts := waits;
      interruptProgress := Some(InterruptProgress(events, 0));
      control := Interrupting;
      BeginInterruptsIs(run, begun, waits, first, events, world(calls));
      calls := calls + 1;
      assert Self() == Go(run, begun, BeginInterrupts(waits, first), world(calls - 1)) && Valid();
      hide *;
      ok := ContinueInterruptBatch();
    }

    method PrepareInterrupts(waits: seq<PendingInterrupt>, first: InterruptRequest,
                             now: Time) returns (ok: bool, events: seq<Event>)
      requires waits != []
      ensures ok <==> DistinctPending(waits)
      ensures ok ==> events == BatchEvents(run, waits, first, sequence, now)
    {
      hide *;
      var seen: set<string>, index := {}, 0;
      events := [];
      NothingPending();
      NoGuards(run, sequence, now);
      while index < |waits|
        invariant 0 <= index <= |waits|
        invariant DistinctPending(waits[..index])
        invariant seen == PendingIDs(waits[..index])
        invariant events == GuardEvents(run, waits[..index], sequence, now)
      {
        var request := waits[index].request;
        OneMoreGuard(run, waits, sequence, now, index);
        OneMorePending(waits, index);
        if request.id == "" || request.id in seen {
          return false, [];
        }
        seen := seen + {request.id};
        events := events + [Stamp(run, GuardEvent(request), sequence + |events| + 1, now)];
        index := index + 1;
      }
      assert waits[..index] == waits;
      BatchEventsIs(run, waits, first, sequence, now);
      events := events + [Stamp(run, WorkflowInterruptEvent(first), sequence + |events| + 1, now)];
      return true, events;
    }

    /** Commits what is left of the batch, event by event, then leaves the run interrupted. */
    method ContinueInterruptBatch() returns (ok: bool)
      requires Valid() && !sinkFailed && control == Interrupting && interruptProgress.Some?
      requires 0 <= interruptProgress.value.next
      modifies this, store, store.log
      ensures Valid() && calls > old(calls) && interrupts == old(interrupts)
      ensures Self() == Carried(run, world, old(Self()), old(calls), calls)
      ensures ok ==>
        control == Suspended && checkpoint.status == Interrupted && checkpoint.confirmedSequence == eventCursor
          && interruptProgress.None?
      ensures !ok ==>
        (control == Stopped || control == Releasing || control == Stuck)
          && (old(checkpoint).status == Running ==> checkpoint.status == Running)
    {
      hide *;
      ghost var begun, from := Self(), calls;
      CarriedNowhere(run, world, begun, from);
      while interruptProgress.value.next < |interruptProgress.value.events|
        invariant Valid() && !sinkFailed && control == Interrupting && calls >= from && interrupts == old(interrupts)
        invariant interruptProgress.Some? && 0 <= interruptProgress.value.next
        invariant Self() == Carried(run, world, begun, from, calls)
        invariant old(checkpoint).status == Running ==> checkpoint.status == Running
        decreases |interruptProgress.value.events| - interruptProgress.value.next
      {
        ghost var reached := calls;
        ok := CommitInterruptBatchEvent();
        CarriedOn(run, world, begun, from, reached, calls);
        if !ok {
          return;
        }
      }
      CarriedMore(run, world, begun, from, calls);
      ok := InterruptCheckpoint();
    }

    method CommitInterruptBatchEvent() returns (ok: bool)
      requires Valid() && !sinkFailed && control == Interrupting && interruptProgress.Some?
      requires 0 <= interruptProgress.value.next < |interruptProgress.value.events|
      modifies this, store, store.log
      ensures Valid() && calls > old(calls) && interrupts == old(interrupts)
      ensures Self() == Carried(run, world, old(Self()), old(calls), calls)
      ensures ok ==>
        control == Interrupting && !sinkFailed
          && checkpoint.confirmedSequence == eventCursor == sequence == old(sequence) + 1
      ensures ok ==>
        interruptProgress == Some(old(interruptProgress.value).(next := old(interruptProgress.value).next + 1))
      ensures if ok then checkpoint.status == Running
              else
                && (control == Stopped || control == Releasing || control == Stuck)
                && (old(checkpoint).status == Running ==> checkpoint.status == Running)
    {
      hide *;
      ghost var begun, from := Self(), calls;
      var event := interruptProgress.value.events[interruptProgress.value.next];
      ok := SaveBatchEvent(event);
      CarriedOnce(run, world, begun, from);
      if ok {
        ok := EmitBatchEvent(event);
        CarriedOn(run, world, begun, from, from + 1, calls);
      }
    }

    method EmitBatchEvent(event: Event) returns (ok: bool)
      requires Valid() && !sinkFailed && control == Journaling(event, Batch) && interruptProgress.Some?
      modifies this, store, store.log
      ensures Valid() && calls >= old(calls) && interrupts == old(interrupts)
      ensures Self() == Carried(run, world, old(Self()), old(calls), calls)
      ensures ok ==>
        control == Interrupting && !sinkFailed
          && checkpoint.confirmedSequence == eventCursor == sequence == old(sequence) + 1
      ensures ok ==>
        interruptProgress == Some(old(interruptProgress.value).(next := old(interruptProgress.value).next + 1))
      ensures checkpoint.status == if ok then Running else old(checkpoint).status
      ensures !ok ==> control == Stopped || control == Releasing || control == Stuck
    {
      hide *;
      ghost var begun, from, stamped := Self(), calls, event;
      ok, stamped := EmitPending(event, Batch);
      if ok {
        AdvancedBatch(old(interruptProgress), stamped);
        CarriedMore(run, world, begun, from, calls);
        ok := ConfirmSaved(stamped, Batch, Interrupting, Stuck);
      }
    }

    method SaveBatchEvent(event: Event) returns (ok: bool)
      requires Valid() && !sinkFailed && control == Interrupting && interruptProgress.Some?
      requires 0 <= interruptProgress.value.next < |interruptProgress.value.events|
      requires event == interruptProgress.value.events[interruptProgress.value.next]
      modifies this`checkpoint, this`control, this`calls, store
      ensures Valid() && calls == old(calls) + 1 && control == if ok then Journaling(event, Batch) else Stuck
      ensures Self() == Go(run, old(Self()), Continue, world(old(calls)))
      ensures checkpoint.status == if ok then Running else old(checkpoint).status
    {
      hide MemoryStore.Valid, MemoryStore.Run, Go, Carried;
      ghost var begun := Self();
      BatchEventIs(run, begun, event, world(calls));
      hide *;
      ok := SaveCheckpoint(Some(event), None, replayStatus, Journaling(event, Batch), Stuck);
    }

    /** Gives the run up as interrupted; the batch is only forgotten when that worked. */
    method InterruptCheckpoint() returns (ok: bool)
      requires Valid() && !sinkFailed && control == Interrupting && interruptProgress.Some?
      requires interruptProgress.value.next >= |interruptProgress.value.events|
      modifies this`checkpoint, this`control, this`calls, this`interruptProgress, store
      ensures Valid() && calls == old(calls) + 1 && control == if ok then Suspended else Stuck
      ensures Self() == Go(run, old(Self()), Continue, world(old(calls)))
      ensures checkpoint.status == if ok then Interrupted else old(checkpoint).status
      ensures ok ==> checkpoint.confirmedSequence == eventCursor && interruptProgress.None?
    {
      hide MemoryStore.Valid, MemoryStore.Run, Go, Carried;
      ghost var begun, env := Self(), world(calls);
      var progress := interruptProgress;
      interruptProgress := None;
      ghost var cleared := Self();
      BatchDoneIs(run, begun, cleared, env);
      hide ClosingRecord, Go;
      ok := CloseCheckpoint(Interrupted, Suspended, Stuck);
      if !ok {
        interruptProgress := progress;
      }
    }

    // ----- recovery -----

    /** Emits the event the run had pending; an announced outcome is carried out,
        otherwise the cursor is confirmed and reconciling comes next. */
    method ReplayPending(event: Event, term: Option<Outcome>) returns (ok: bool)
      requires Valid() && !sinkFailed && control == Journaling(event, Replay(term)) && checkpoint.status == Running
      requires WithinBatch(interruptProgress)
      modifies this, store, store.log
      ensures Valid() && calls >= old(calls)
      ensures Self() == Carried(run, world, old(Self()), old(calls), calls)
      ensures ok && term.None? ==> control == Reconciling && !sinkFailed && checkpoint.status == Running
      ensures ok && term.Some? ==> control == Stopped && checkpoint.status == Ended(term.value)
      ensures ok ==> WithinBatch(interruptProgress)
      ensures !ok ==> checkpoint.status == Running && (control == Stopped || control == Releasing)
    {
      hide *;
      ghost var begun, from, stamped := Self(), calls, event;
      ok, stamped := EmitPending(event, Replay(term));
      if ok {
        AdvancedReplay(old(interruptProgress), stamped, term);
        CarriedMore(run, world, begun, from, calls);
        if term.Some? {
          ok := ConfirmEnding(term.value, stamped, Replay(term));
        } else {
          ok := ConfirmSaved(stamped, Replay(term), Reconciling, Stopped);
        }
      }
    }

    /** Replays what the journal holds beyond the cursor, page by page, confirming the
        cursor after each. Every page that is not the last moves the cursor, so the
        records beyond it run out. */
    method ReconcileJournal() returns (ok: bool)
      requires Valid() && !sinkFailed && control == Reconciling && checkpoint.status == Running
      modifies this, store, store.log
      ensures Valid() && calls >= old(calls)
      ensures Self() == Carried(run, world, old(Self()), old(calls), calls)
      ensures checkpoint.status == Running && interruptProgress == old(interruptProgress)
      ensures interrupts == old(interrupts)
      ensures ok ==> !sinkFailed && control == if interruptProgress.Some? then Interrupting else Loading
      ensures !ok ==> control == Stopped || control == Releasing
    {
      hide *;
      ghost var begun, from := Self(), calls;
      CarriedNowhere(run, world, begun, from);
      while true
        invariant Valid() && !sinkFailed && control == Reconciling && calls >= from
        invariant checkpoint.status == Running && interruptProgress == old(interruptProgress)
        invariant interrupts == old(interrupts)
        invariant Self() == Carried(run, world, begun, from, calls)
        decreases |Beyond(run, Self())|
      {
        var page;
        CarriedMore(run, world, begun, from, calls);
        ok, page := ListJournal();
        if !ok || page == [] {
          return;
        }
        FirstOfPage(Beyond(run, Self()));
        ghost var reached := calls;
        ok := ReplayJournalPage(page);
        CarriedOn(run, world, begun, from, reached, calls);
        if !ok || |page| < RECONCILE_PAGE_SIZE {
          return;
        }
      }
    }

    method ListJournal() returns (ok: bool, page: seq<Record>)
      requires Valid() && !sinkFailed && control == Reconciling
      modifies this`calls, this`control
      ensures Valid() && calls == old(calls) + 1
      ensures Self() == Go(run, old(Self()), Continue, world(old(calls)))
      ensures ok ==>
        Beyond(run, Self()) == Beyond(run, old(Self())) && page == Page(Beyond(run, Self()), RECONCILE_PAGE_SIZE)
      ensures control == if !ok then Stopped
                         else if page != [] then ReplayingPage(page, |page| == RECONCILE_PAGE_SIZE)
                         else if interruptProgress.Some? then Interrupting else Loading
    {
      hide MemoryLog.Valid, Go, MemoryStore.Run;
      ghost var begun := Self();
      var query := Query("", run.identity.runID, eventCursor, RECONCILE_PAGE_SIZE);
      var env := world(calls);
      ok, page := store.log.List(env.fails, query);
      ListedBeyond();
      calls := calls + 1;
      ListIs(run, begun, page, env);
      hide Matching;
      control := if !ok then Stopped
                 else if page != [] then ReplayingPage(page, |page| == RECONCILE_PAGE_SIZE)
                 else if interruptProgress.Some? then Interrupting else Loading;
    }

    /** Offers a page to the sinks, record by record, and confirms the cursor. */
    method ReplayJournalPage(page: seq<Record>) returns (ok: bool)
      requires Valid() && !sinkFailed && control == ReplayingPage(page, |page| == RECONCILE_PAGE_SIZE)
      requires checkpoint.status == Running
      requires page != [] && page[0] in Beyond(run, Self())
      modifies this, store, store.log
      ensures Valid() && calls >= old(calls)
      ensures Self() == Carried(run, world, old(Self()), old(calls), calls)
      ensures checkpoint.status == Running && interruptProgress == old(interruptProgress)
      ensures interrupts == old(interrupts)
      ensures ok ==> !sinkFailed && |Beyond(run, Self())| < |old(Beyond(run, Self()))|
      ensures ok ==>
        control == if |page| == RECONCILE_PAGE_SIZE then Reconciling
          else if interruptProgress.Some? then Interrupting else Loading
      ensures !ok ==> control == Stopped || control == Releasing
    {
      hide *;
      ghost var begun, from, full := Self(), calls, |page| == RECONCILE_PAGE_SIZE;
      var index := 0;
      SelfIs();
      CarriedNowhere(run, world, begun, from);
      while index < |page|
        invariant 0 <= index <= |page| && Valid() && !sinkFailed && calls >= from
        invariant control == ReplayingPage(page[index..], full) && eventCursor == old(eventCursor) + index
        invariant checkpoint == old(checkpoint) && interruptProgress == old(interruptProgress)
        invariant interrupts == old(interrupts)
        invariant Self() == Carried(run, world, begun, from, calls) && Self().store == begun.store
        invariant index > 0 ==> page[0].sequence == old(eventCursor) + 1
      {
        CarriedMore(run, world, begun, from, calls);
        assert page[index..][0] == page[index] && page[index..][1..] == page[index + 1..];
        ok := ReplayRecord(page[index..], full);
        if !ok {
          return;
        }
        index := index + 1;
      }
      CarriedMore(run, world, begun, from, calls);
      SelfIs();
      assert page[index..] == [];
      ok := SavePage(full);
      BeyondShrinks(run, begun, Self(), page[0]);
    }

    method ReplayRecord(page: seq<Record>, ghost full: bool) returns (ok: bool)
      requires Valid() && !sinkFailed && control == ReplayingPage(page, full) && page != []
      modifies this`sequence, this`eventCursor, this`sinkFailed, this`offers, this`control, this`calls
      ensures Valid() && calls == old(calls) + 1
      ensures Self() == Go(run, old(Self()), Continue, world(old(calls))) && Self().store == old(Self()).store
      ensures ok ==>
        !sinkFailed && control == ReplayingPage(page[1..], full)
          && eventCursor == old(eventCursor) + 1 == page[0].sequence
      ensures !ok ==> control == Stopped || control == Releasing
    {
      hide MemoryStore.Valid, MemoryStore.Run, Go, ValidJournalRecord;
      var env, record := world(calls), page[0];
      ReplayRecordIs(run, Self(), page, full, env);
      calls := calls + 1;
      if !ValidJournalRecord(run, record, eventCursor + 1) {
        control := Stopped;
        return false;
      }
      offers := offers + [record.sequence];
      if env.fails {
        sinkFailed, control := true, Releasing;
        return false;
      }
      sequence, eventCursor := record.sequence, record.sequence;
      control := ReplayingPage(page[1..], full);
      return true;
    }

    /** Confirms the cursor after a page. */
    method SavePage(ghost full: bool) returns (ok: bool)
      requires Valid() && !sinkFailed && control == ReplayingPage([], full)
      modifies this`checkpoint, this`control, this`calls, store
      ensures Valid() && calls == old(calls) + 1
      ensures Self() == Go(run, old(Self()), Continue, world(old(calls)))
      ensures Self().store.journal == old(Self()).store.journal && Self().owner.cursor == old(Self()).owner.cursor
      ensures checkpoint.status == if ok then Running else old(checkpoint).status
      ensures control == if !ok then Stopped else if full then Reconciling
        else if interruptProgress.Some? then Interrupting else Loading
    {
      ghost var begun := Self();
      ghost var next := if full then Reconciling else if interruptProgress.Some? then Interrupting else Loading;
      PageDoneIs(run, begun, full, next, world(calls));
      hide *;
      ok := SaveCheckpoint(None, None, replayStatus, next, Stopped);
    }

    /** The execution as an owner has the execution's own fields. */
    lemma Fields()
      ensures Valid() ==> store.Valid()
      ensures var owner := Self().owner;
              && owner.checkpoint == checkpoint && owner.interrupts == interrupts && owner.progress == interruptProgress
              && owner.control == control && Self().store == store.Run(run.identity.runID)
    {
    }

    lemma SelfIs()
      ensures var owner := Self().owner;
              && owner.checkpoint == checkpoint && owner.sequence == sequence && owner.cursor == eventCursor
              && owner.control == control
    {
    }

    lemma ListedBeyond()
      requires Valid()
      ensures Matching(store.log.records, Query("", run.identity.runID, eventCursor, RECONCILE_PAGE_SIZE))
        == Beyond(run, Self())
    {
      var query := Query("", run.identity.runID, eventCursor, 0);
      MatchingIgnoresLimit(store.log.records, query, RECONCILE_PAGE_SIZE);
      MatchingPerRun(store.log.records, query);
    }

    /** Recovery: carries out what was pending, catches up with the journal, completes an
        interrupt batch that was under way or else reports that the run was restored. It
        terminates whatever the surroundings do, and it is a run of protocol steps. If it
        comes back resuming, it knows the whole journal; and as long as no call fails
        while the lease lasts it does come back, resuming or with the run finished. */
    method Restore(ghost lease: Time) returns (ok: bool)
      requires Valid() && !sinkFailed && checkpoint.status == Running
      requires WithinBatch(interruptProgress)
      requires Self().owner == Restored(run, checkpoint, world(0))
      requires control != Stopped && ValidRun(run) && Consistent(run, Self()) && Holds(Self(), lease)
      requires forall k :: world(k).now > 0
      modifies this, store, store.log
      ensures Valid() && Self() == Carried(run, world, old(Self()), old(calls), calls) && Consistent(run, Self())
      ensures ok ==>
        (control == Resuming && !sinkFailed && checkpoint.status == Running)
          || ((control == Stopped || control == Suspended) && checkpoint.status != Running)
      ensures ok && control == Resuming && Holds(Self(), lease) ==> eventCursor == sequence == |Self().store.journal|
      ensures (forall k :: Quiet(world(k), lease)) ==> ok && Unhindered(Self(), lease)
    {
      hide *;
      ghost var begun := Self();
      SelfIs();
      NotYetHindered(run, checkpoint, world(0), begun, lease);
      ok := Recover();
      SelfIs();
      CarriedKeeps(run, world, begun, old(calls), calls);
      if ok && control == Resuming && Holds(Self(), lease) {
        KnowsTheJournal(run, Self(), lease);
      }
      if forall k :: Quiet(world(k), lease) {
        QuietRun(run, world, begun, old(calls), calls, lease);
        if !ok {
          GoesOn(Self(), lease);
        }
      }
    }

    method Recover() returns (ok: bool)
      requires Valid() && !sinkFailed && checkpoint.status == Running && WithinBatch(interruptProgress)
      requires Self().owner == Restored(run, checkpoint, world(0))
      modifies this, store, store.log
      ensures Valid() && calls >= old(calls) && Self() == Carried(run, world, old(Self()), old(calls), calls)
      ensures ok ==>
        (control == Resuming && !sinkFailed && checkpoint.status == Running)
          || ((control == Stopped || control == Suspended) && checkpoint.status != Running)
      ensures !ok ==> checkpoint.status == Running && (control == Stopped || control == Releasing || control == Stuck)
    {
      ghost var begun, from := Self(), calls;
      var payload, now := checkpoint.payload, world(0).now;
      RestoredStands(run, checkpoint, world(0));
      assert sequence == payload.eventCursor && control == begun.owner.control;
      hide *;
      CarriedNowhere(run, world, begun, from);
      if payload.pendingEvent.Some? {
        var event := payload.pendingEvent.value;
        if event.sequence != sequence + 1 {
          return false;
        }
        ok := ReplayPending(Stamp(run, event, event.sequence, now), payload.pendingTerm);
        if !ok || payload.pendingTerm.Some? {
          return;
        }
      }
      ghost var replayed := calls;
      ok := CatchUp();
      CarriedOn(run, world, begun, from, replayed, calls);
    }

    /** What follows once nothing is pending any more. */
    method CatchUp() returns (ok: bool)
      requires Valid() && !sinkFailed && control == Reconciling && checkpoint.status == Running
      requires WithinBatch(interruptProgress)
      modifies this, store, store.log
      ensures Valid() && calls >= old(calls) && Self() == Carried(run, world, old(Self()), old(calls), calls)
      ensures ok ==>
        (control == Resuming && !sinkFailed && checkpoint.status == Running)
          || (control == Suspended && checkpoint.status != Running)
      ensures !ok ==> checkpoint.status == Running && (control == Stopped || control == Releasing || control == Stuck)
    {
      hide *;
      ghost var begun, from := Self(), calls;
      ok := ReconcileJournal();
      if !ok {
        return;
      }
      ghost var reconciled := calls;
      if interruptProgress.Some? {
        BatchStart(interruptProgress);
        ok := ContinueInterruptBatch();
      } else {
        ok := EmitLoaded();
      }
      CarriedOn(run, world, begun, from, reconciled, calls);
    }
  }

  // ----- resuming a run -----

  /** Whether the resolutions a resume supplies fit what the checkpoint waits for. */
  ghost predicate Resolvable(loaded: Checkpoint, resolutions: seq<Resolution>) {
    if loaded.status == Interrupted then Exact(loaded.payload.pendingInterrupts, resolutions)
    else ReplayAllowed(loaded.payload.resolvedInterrupts, resolutions)
  }

  /** The store lets this owner claim what it loaded. */
  ghost predicate Claimable(run: RunConfig, store: RunStore, loaded: Checkpoint, ownerID: string, env: Env) {
    !env.fails && Claimed(store, ClaimRecord(run, loaded, ownerID, None, env), loaded.version, env.now).error.None?
  }

  /** The answers a claim carries. */
  ghost predicate AnswersFor(loaded: Checkpoint, resolutions: seq<Resolution>,
                             answers: Option<seq<ResolvedInterrupt>>) {
    && (answers.Some? <==> loaded.status == Interrupted)
    && ResolutionsFit(loaded, resolutions, if answers.Some? then answers.value else [])
  }

  /** What a granted claim leaves. */
  ghost function TakenOver(run: RunConfig, store: RunStore, loaded: Checkpoint, ownerID: string,
                           answers: Option<seq<ResolvedInterrupt>>, env: Env, restoring: Env): Moved {
    var candidate := ClaimRecord(run, loaded, ownerID, answers, env);
    Moved(Claimed(store, candidate, loaded.version, env.now).store,
      Restored(run, candidate.(version := loaded.version + 1), restoring))
  }

  /** Resolves what the run waits for and claims it under the next claim. */
  method ClaimCheckpoint(run: RunConfig, store: MemoryStore, loaded: Checkpoint, ownerID: string,
                         resolutions: seq<Resolution>, env: Env)
    returns (claimed: Option<Checkpoint>, ghost answers: Option<seq<ResolvedInterrupt>>)
    requires store.Valid() && loaded.identity == run.identity
    modifies store
    ensures store.Valid()
    ensures claimed.Some? <==>
      Resolvable(loaded, resolutions) && Claimable(run, old(store.Run(run.identity.runID)), loaded, ownerID, env)
    ensures claimed.None? ==> store.Run(run.identity.runID) == old(store.Run(run.identity.runID))
    ensures claimed.Some? ==>
              && AnswersFor(loaded, resolutions, answers)
              && claimed.value == ClaimRecord(run, loaded, ownerID, answers, env).(version := loaded.version + 1)
              && store.Run(run.identity.runID)
                 == Claimed(old(store.Run(run.identity.runID)), ClaimRecord(run, loaded, ownerID, answers, env),
                   loaded.version, env.now).store
  {
    hide Exact, Answers, ReplayAllowed, Claimed, MemoryStore.Run, MemoryStore.Valid;
    var error;
    var carried: Option<seq<ResolvedInterrupt>> := None;
    if loaded.status == Interrupted {
      var resolved;
      resolved, error := ResolvePendingInterrupts(loaded.payload.pendingInterrupts, resolutions);
      carried := Some(resolved);
    } else {
      error := ValidateResolvedInterruptReplay(loaded.payload.resolvedInterrupts, resolutions);
    }
    answers := carried;
    if error.Some? {
      return None, answers;
    }
    var candidate := ClaimRecord(run, loaded, ownerID, carried, env);
    AnswersDoNotDecide(run, store.Run(run.identity.runID), loaded, ownerID, carried, env);
    RefusalChangesNothing(store.Run(run.identity.runID), Call(DoClaim(candidate, loaded.version), env.now));
    var refused := store.Claim(env.fails, candidate, loaded.version, env.now);
    claimed := if refused.Some? then None else Some(candidate.(version := loaded.version + 1));
  }

  lemma AnswersDoNotDecide(run: RunConfig, store: RunStore, loaded: Checkpoint, ownerID: string,
                           answers: Option<seq<ResolvedInterrupt>>, env: Env)
    ensures Claimed(store, ClaimRecord(run, loaded, ownerID, answers, env), loaded.version, env.now).error.None?
       <==> Claimed(store, ClaimRecord(run, loaded, ownerID, None, env), loaded.version, env.now).error.None?
    ensures ClaimRecord(run, loaded, ownerID, answers, env).identity == loaded.identity
  {
  }

  /** Resumes a run: loads its checkpoint, claims it, restores the execution and starts an
      attempt. The claim is granted exactly if the checkpoint is one a resume accepts, the
      resolutions fit and the store agrees; from then on, as long as no call fails while
      the lease lasts, the execution gets to work knowing the whole journal, unless what
      was under way ended the run or left it interrupted. */
  method Resume(run: RunConfig, store: MemoryStore, world: World, ownerID: string, resolutions: seq<Resolution>,
                claiming: Env)
    returns (execution: WorkflowExecution?, ok: bool)
    requires store.Valid() && ValidRun(run) && SoundStore(run, store.Run(run.identity.runID))
    requires claiming.now > 0 && forall k :: world(k).now > 0
    modifies store, store.log
    ensures store.Valid()
    ensures (execution == null ==> !ok && store.Run(run.identity.runID) == old(store.Run(run.identity.runID)))
    ensures execution != null <==>
              var head := old(store.Run(run.identity.runID).head);
              && !claiming.fails && head.Some? && !Terminal(head.value.status)
              && ValidInterruptProgress(run, head.value)
              && Resolvable(head.value, resolutions)
              && Claimable(run, old(store.Run(run.identity.runID)), head.value, ownerID, claiming)
    ensures execution != null ==>
              && fresh(execution) && execution.Valid() && execution.run == run && execution.store == store
              && Consistent(run, execution.Self())
    ensures execution != null && ok ==>
              || (execution.control == Ready && execution.checkpoint.status == Running)
              || ((execution.control == Stopped || execution.control == Suspended)
                && execution.checkpoint.status != Running)
    ensures execution != null && (forall k :: Quiet(world(k), claiming.now + run.leaseDuration)) ==>
              && ok && Unhindered(execution.Self(), claiming.now + run.leaseDuration)
              && (execution.control == Ready ==>
                    execution.eventCursor == execution.sequence == |execution.Self().store.journal|)
  {
    hide *;
    execution, ok := null, false;
    RunIsNamed(run);
    ghost var before, lease := store.Run(run.identity.runID), claiming.now + run.leaseDuration;
    var loaded, error := store.Load(claiming.fails, run.identity.runID);
    if error.Some? || Terminal(loaded.value.status) || !ValidInterruptProgress(run, loaded.value) {
      return;
    }
    HeadIsOfRun(run, before);
    ghost var answers;
    var claimed;
    claimed, answers := ClaimCheckpoint(run, store, loaded.value, ownerID, resolutions, claiming);
    if claimed.None? {
      return;
    }
    ClaimRestores(run, before, loaded.value, ownerID, resolutions, answers, claiming, world(0));
    execution := new WorkflowExecution(run, store, world, claimed.value);
    RestoredFields(run, claimed.value, world(0));
    execution.Fields();
    ok := execution.Restore(lease);
    execution.Fields();
    if ok && execution.checkpoint.status == Running {
      ok := Attempted(execution, lease);
      execution.Fields();
    }
  }

  /** A restored execution starts its attempt. */
  method Attempted(execution: WorkflowExecution, ghost lease: Time) returns (ok: bool)
    requires execution.Valid() && !execution.sinkFailed && execution.control == Resuming
    requires execution.checkpoint.status == Running
    requires ValidRun(execution.run) && Consistent(execution.run, execution.Self())
    requires forall k :: execution.world(k).now > 0
    requires (forall k :: Quiet(execution.world(k), lease)) ==> Unhindered(execution.Self(), lease)
    modifies execution, execution.store, execution.store.log
    ensures execution.Valid() && Consistent(execution.run, execution.Self())
    ensures ok ==> execution.control == Ready && execution.checkpoint.status == Running
    ensures (forall k :: Quiet(execution.world(k), lease)) ==>
              && ok && Unhindered(execution.Self(), lease)
              && execution.eventCursor == execution.sequence == |execution.Self().store.journal|
  {
    hide *;
    ghost var restored, from := execution.Self(), execution.calls;
    ok := execution.StartAttempt(true);
    execution.Fields();
    execution.SelfIs();
    CarriedKeeps(execution.run, execution.world, restored, from, execution.calls);
    if forall k :: Quiet(execution.world(k), lease) {
      QuietRun(execution.run, execution.world, restored, from, execution.calls, lease);
      GoesOn(execution.Self(), lease);
      KnowsTheJournal(execution.run, execution.Self(), lease);
    }
  }

  lemma RunIsNamed(run: RunConfig)
    requires ValidRun(run)
    ensures run.identity.runID != "" && run.leaseDuration > 0
  {
  }

  lemma HeadIsOfRun(run: RunConfig, store: RunStore)
    requires SoundStore(run, store) && store.head.Some?
    ensures store.head.value.identity == run.identity
  {
    hide WellFormed, GenuineJournal, Chained;
  }

  lemma RestoredFields(run: RunConfig, claimed: Checkpoint, env: Env)
    ensures Restored(run, claimed, env).checkpoint == claimed
    ensures Restored(run, claimed, env).progress == claimed.payload.interruptProgress
  {
    hide Stamp;
  }

  /** A granted claim brings in an owner that agrees with the store and holds the run until
      its lease ends. */
  lemma ClaimRestores(run: RunConfig, store: RunStore, loaded: Checkpoint, ownerID: string,
                      resolutions: seq<Resolution>, answers: Option<seq<ResolvedInterrupt>>, env: Env, restoring: Env)
    requires ValidRun(run) && SoundStore(run, store) && store.head == Some(loaded) && restoring.now > 0
    requires !Terminal(loaded.status) && ValidInterruptProgress(run, loaded) && AnswersFor(loaded, resolutions, answers)
    requires Claimable(run, store, loaded, ownerID, env)
    ensures var moved, claimed := TakenOver(run, store, loaded, ownerID, answers, env, restoring),
                                  ClaimRecord(run, loaded, ownerID, answers, env).(version := loaded.version + 1);
            && moved.store
                 == Claimed(store, ClaimRecord(run, loaded, ownerID, answers, env), loaded.version, env.now).store
            && moved.owner == Restored(run, claimed, restoring)
            && Consistent(run, moved) && Holds(moved, env.now + run.leaseDuration) && moved.owner.control != Stopped
            && claimed.status == Running && claimed.identity == run.identity
            && WithinBatch(claimed.payload.interruptProgress)
  {
    hide Answers, SoundPending, SoundProgress, Stamp, Bare, Refused, SoundStore, OwnerOK, BatchShaped, Restored,
      Claimed;
    HeadIsOfRun(run, store);
    AnswersDoNotDecide(run, store, loaded, ownerID, answers, env);
    ClaimIsConsistent(run, store, loaded, ownerID, resolutions, answers, env, restoring);
    ClaimHolds(run, store, ClaimRecord(run, loaded, ownerID, answers, env), loaded.version, restoring, env);
  }

  lemma ClaimIsConsistent(run: RunConfig, store: RunStore, loaded: Checkpoint, ownerID: string,
                          resolutions: seq<Resolution>, answers: Option<seq<ResolvedInterrupt>>, env: Env,
                          restoring: Env)
    requires ValidRun(run) && SoundStore(run, store) && store.head == Some(loaded) && restoring.now > 0
    requires !Terminal(loaded.status) && ValidInterruptProgress(run, loaded) && AnswersFor(loaded, resolutions, answers)
    requires Claimed(store, ClaimRecord(run, loaded, ownerID, answers, env), loaded.version, env.now).error.None?
    ensures Consistent(run, TakenOver(run, store, loaded, ownerID, answers, env, restoring))
    ensures TakenOver(run, store, loaded, ownerID, answers, env, restoring).owner.control != Stopped
  {
    hide Sound, Restored, OwnerOK, Chained, GenuineJournal, Resumable, ResolutionsFit, ProgressConsistent, ReportsFirst;
    var candidate := ClaimRecord(run, loaded, ownerID, answers, env);
    var after := Claimed(store, candidate, loaded.version, env.now).store;
    ApplyKeepsWellFormed(store, Call(DoClaim(candidate, loaded.version), env.now));
    ClaimIsSound(run, loaded, store.journal, ownerID, if answers.Some? then answers.value else [], env);
    SoundIgnoresLease(run, candidate, after.head.value, store.journal);
    PushKeepsSound(run, store, after.head.value);
    RestoredAgrees(run, after, candidate.(version := loaded.version + 1), restoring);
  }

  lemma EmitIs(run: RunConfig, begun: Moved, event: Event, purpose: Purpose, env: Env, stamped: Event)
    requires stamped == Stamp(run, event, begun.owner.sequence + 1, env.now)
    ensures stamped.runID == run.identity.runID && stamped.eventType == event.eventType
    ensures Emit(run, begun.store, begun.owner, event, purpose, env)
         == Emitted(begun.store, begun.owner, stamped, purpose,
              Attempt(begun.store, env,
                Journaled(begun.store, Entry(run, stamped),
                  Fence(begun.owner.checkpoint.ownerID, begun.owner.checkpoint.claimSequence), env.now)))
  {
    hide Journaled, Entry, Emitted;
  }

  lemma DeliveredIs(event: Event, purpose: Purpose)
    ensures Delivered(event, Observe) == Ready && Delivered(event, Load) == Resuming
    ensures purpose != Observe && purpose != Load ==> Delivered(event, purpose) == Confirming(event, purpose)
  {
  }

  lemma CarriedNowhere(run: RunConfig, world: World, moved: Moved, from: nat)
    ensures Carried(run, world, moved, from, from) == moved
  {
  }

  lemma CarriedOnce(run: RunConfig, world: World, moved: Moved, from: nat)
    ensures Carried(run, world, moved, from, from + 1) == Go(run, moved, Continue, world(from))
  {
    hide Go;
  }

  lemma CarriedMore(run: RunConfig, world: World, moved: Moved, from: nat, until: nat)
    requires from <= until
    ensures Carried(run, world, moved, from, until + 1)
      == Go(run, Carried(run, world, moved, from, until), Continue, world(until))
  {
    hide Go;
  }

  lemma CarriedFirst(run: RunConfig, world: World, moved: Moved, from: nat, until: nat)
    requires from < until
    ensures Carried(run, world, moved, from, until)
      == Carried(run, world, Go(run, moved, Continue, world(from)), from + 1, until)
  {
    hide Go;
    CarriedOnce(run, world, moved, from);
    CarriedOn(run, world, moved, from, from + 1, until);
  }

  /** What may be saved ahead where. */
  predicate MayCommit(run: RunConfig, control: Control, event: Event, purpose: Purpose) {
    match purpose
    case Advance => control == Ready && Fresh(event) && RunningType(event.eventType)
    case Begin => (control == Starting && event == AttemptEvent(run, false))
      || (control == Resuming && event == AttemptEvent(run, true))
    case Conclude(outcome) => MayConclude(control) && Fresh(event) && event.eventType == WorkflowEnded(outcome)
    case _ => false
  }

  function Beginning(event: Event, purpose: Purpose): Action {
    if purpose.Conclude? then BeginConclude(purpose.outcome, event)
    else if purpose == Begin then Continue
    else BeginAdvance(event)
  }

  lemma BeginningIsContinue(event: Event)
    ensures Beginning(event, Begin) == Continue
  {
  }

  lemma AttemptMayCommit(run: RunConfig, control: Control, resumed: bool, sinkFailed: bool)
    requires sinkFailed || control == if resumed then Resuming else Starting
    ensures sinkFailed || MayCommit(run, control, AttemptEvent(run, resumed), Begin)
  {
  }

  lemma ConcludingMayCommit(run: RunConfig, control: Control, outcome: Outcome, event: Event, sinkFailed: bool)
    requires sinkFailed || MayConclude(control)
    requires Fresh(event) && event.eventType == WorkflowEnded(outcome)
    ensures sinkFailed || MayCommit(run, control, event, Conclude(outcome))
  {
  }

  lemma BeginningIs(run: RunConfig, begun: Moved, event: Event, purpose: Purpose, env: Env, pending: Event)
    requires MayCommit(run, begun.owner.control, event, purpose)
    requires pending == Stamp(run, event, begun.owner.sequence + 1, env.now)
    ensures pending.eventType == event.eventType
    ensures var term := if purpose.Conclude? then Some(purpose.outcome) else None;
            var status := if purpose.Conclude? then begun.owner.replayStatus else ReplayStatusFor(event.eventType);
            Go(run, begun, Beginning(event, purpose), env)
            == Save(begun.store, begun.owner, SaveRecord(run, begun.owner, Some(pending), term, status, env), env,
                    Journaling(pending, purpose), if purpose == Advance then Ready else Stopped)
  {
    hide SaveRecord, Save, Stamp;
    StampKeepsType(run, event, begun.owner.sequence + 1, env.now);
  }

  lemma StampKeepsType(run: RunConfig, event: Event, sequence: int, now: Time)
    ensures Stamp(run, event, sequence, now).eventType == event.eventType
  {
  }

  lemma ConfirmRunningIs(run: RunConfig, begun: Moved, event: Event, purpose: Purpose, env: Env)
    requires begun.owner.control == Confirming(event, purpose) && (purpose == Advance || purpose == Begin)
    ensures var status, fallback := ReplayStatusFor(event.eventType), if purpose == Advance then Ready else Stopped;
            var saved := Save(begun.store, begun.owner, SaveRecord(run, begun.owner, None, None, status, env), env,
              Ready, fallback);
            && Go(run, begun, Continue, env)
               == (if saved.owner.checkpoint.version == begun.owner.checkpoint.version then saved
                   else saved.(owner := saved.owner.(replayStatus := status)))
  {
  }

  lemma ConfirmEndingIs(run: RunConfig, begun: Moved, outcome: Outcome, event: Event, purpose: Purpose, env: Env)
    requires begun.owner.control == Confirming(event, purpose)
    requires purpose == Conclude(outcome) || purpose == Replay(Some(outcome))
    ensures Go(run, begun, Continue, env)
         == Save(begun.store, begun.owner, ClosingRecord(begun.owner, Ended(outcome), begun.owner.progress, env), env,
           Stopped, Stopped)
  {
    hide ClosingRecord, Save;
  }

  lemma ConfirmSavedIs(run: RunConfig, begun: Moved, event: Event, purpose: Purpose, next: Control, fallback: Control,
                       env: Env)
    requires begun.owner.control == Confirming(event, purpose)
    requires (purpose == Batch && next == Interrupting && fallback == Stuck)
          || (purpose == Replay(None) && next == Reconciling && fallback == Stopped)
    ensures Go(run, begun, Continue, env)
         == Save(begun.store, begun.owner, SaveRecord(run, begun.owner, None, None, begun.owner.replayStatus, env), env,
           next, fallback)
  {
    hide SaveRecord, Save;
  }

  lemma AdvancedBatch(progress: Option<InterruptProgress>, event: Event)
    requires progress.Some?
    ensures Advanced(progress, event, Batch) == Some(progress.value.(next := progress.value.next + 1))
  {
  }

  lemma BeginInterruptsIs(run: RunConfig, begun: Moved, waits: seq<PendingInterrupt>, first: InterruptRequest,
                          events: seq<Event>, env: Env)
    requires begun.owner.control == Ready && waits != []
    requires events == BatchEvents(run, waits, first, begun.owner.sequence, env.now)
    ensures Go(run, begun, BeginInterrupts(waits, first), env)
         == Moved(begun.store,
           begun.owner.(interrupts := waits, progress := Some(InterruptProgress(events, 0)), control := Interrupting))
  {
    hide BatchEvents;
  }

  lemma BatchEventIs(run: RunConfig, begun: Moved, event: Event, env: Env)
    requires begun.owner.control == Interrupting && begun.owner.progress.Some?
    requires 0 <= begun.owner.progress.value.next < |begun.owner.progress.value.events|
    requires event == begun.owner.progress.value.events[begun.owner.progress.value.next]
    ensures Go(run, begun, Continue, env)
         == Save(begun.store, begun.owner,
           SaveRecord(run, begun.owner, Some(event), None, begun.owner.replayStatus, env), env,
                 Journaling(event, Batch), Stuck)
  {
    hide SaveRecord, Save;
  }

  lemma BatchDoneIs(run: RunConfig, begun: Moved, cleared: Moved, env: Env)
    requires begun.owner.control == Interrupting && begun.owner.progress.Some?
    requires begun.owner.progress.value.next >= |begun.owner.progress.value.events|
    requires cleared == begun.(owner := begun.owner.(progress := None))
    ensures var saved :=
      Save(cleared.store, cleared.owner, ClosingRecord(cleared.owner, Interrupted, None, env), env, Suspended, Stuck);
            && (saved.owner.control == Suspended ==> Go(run, begun, Continue, env) == saved)
            && (saved.owner.control == Stuck ==>
                  Go(run, begun, Continue, env) == saved.(owner := saved.owner.(progress := begun.owner.progress)))
  {
  }

  lemma ListIs(run: RunConfig, begun: Moved, page: seq<Record>, env: Env)
    requires begun.owner.control == Reconciling
    requires !env.fails && begun.owner.cursor >= 0 ==> page == NextPage(begun.store, begun.owner, run.identity.runID)
    ensures Go(run, begun, Continue, env)
         == begun.(owner := begun.owner.(control :=
              if env.fails || begun.owner.cursor < 0 then Stopped
              else if page == [] then Recovered(begun.owner)
              else ReplayingPage(page, |page| == RECONCILE_PAGE_SIZE)))
  {
    hide NextPage;
  }

  /** The journaled records beyond an owner's cursor. */
  ghost function Beyond(run: RunConfig, moved: Moved): seq<Record> {
    Matching(moved.store.journal, Query("", run.identity.runID, moved.owner.cursor, 0))
  }

  lemma BeyondShrinks(run: RunConfig, before: Moved, after: Moved, record: Record)
    requires after.store.journal == before.store.journal && before.owner.cursor <= after.owner.cursor
    requires record in Beyond(run, before) && record.sequence <= after.owner.cursor
    ensures |Beyond(run, after)| < |Beyond(run, before)|
  {
    MatchingShrinks(before.store.journal, Query("", run.identity.runID, before.owner.cursor, 0), after.owner.cursor);
  }

  lemma FirstOfPage(items: seq<Record>)
    ensures var page := Page(items, RECONCILE_PAGE_SIZE);
            |page| <= RECONCILE_PAGE_SIZE && (page != [] ==> page[0] in items)
  {
  }

  lemma PageDoneIs(run: RunConfig, begun: Moved, full: bool, next: Control, env: Env)
    requires begun.owner.control == ReplayingPage([], full)
    requires next == if full then Reconciling else Recovered(begun.owner)
    ensures var saved :=
      Save(begun.store, begun.owner, SaveRecord(run, begun.owner, None, None, begun.owner.replayStatus, env), env,
        next, Stopped);
            && Go(run, begun, Continue, env) == saved
            && saved.store.journal == begun.store.journal && saved.owner.cursor == begun.owner.cursor
  {
    hide SaveRecord;
  }

  predicate WithinBatch(progress: Option<InterruptProgress>) {
    progress.Some? ==> 0 <= progress.value.next
  }

  lemma AdvancedReplay(progress: Option<InterruptProgress>, event: Event, term: Option<Outcome>)
    requires WithinBatch(progress)
    ensures WithinBatch(Advanced(progress, event, Replay(term)))
  {
  }

  lemma BatchStart(progress: Option<InterruptProgress>)
    requires WithinBatch(progress) && progress.Some?
    ensures 0 <= progress.value.next
  {
  }

  lemma RestoredStands(run: RunConfig, claimed: Checkpoint, env: Env)
    ensures var payload, owner := claimed.payload, Restored(run, claimed, env);
            && owner.sequence == owner.cursor == payload.eventCursor && owner.checkpoint == claimed
            && owner.control == (if payload.pendingEvent.None? then Reconciling
                                 else
                                   var event := payload.pendingEvent.value;
                                   if event.sequence != payload.eventCursor + 1 then Stopped
                                   else Journaling(Stamp(run, event, event.sequence, env.now),
                                                   Replay(payload.pendingTerm)))
  {
  }

  lemma NotYetHindered(run: RunConfig, claimed: Checkpoint, env: Env, moved: Moved, lease: Time)
    requires Holds(moved, lease) && moved.owner == Restored(run, claimed, env) && moved.owner.control != Stopped
    ensures Unhindered(moved, lease)
  {
  }

  lemma GoesOn(moved: Moved, lease: Time)
    requires Unhindered(moved, lease) && moved.owner.checkpoint.status == Running
    ensures GoingOn(moved.owner.control) && Holds(moved, lease)
  {
  }

  lemma DeliverIs(run: RunConfig, begun: Moved, event: Event, purpose: Purpose, env: Env)
    requires begun.owner.control == Delivering(event, purpose)
    ensures var offered := begun.owner.(offers := begun.owner.offers + [event.sequence]);
            Go(run, begun, Continue, env).owner
            == (if env.fails then offered.(control := Releasing)
                else offered.(cursor := offered.sequence, progress := Advanced(offered.progress, event, purpose),
                              control := Delivered(event, purpose)))
    ensures Go(run, begun, Continue, env).store == begun.store
  {
    hide Advanced;
  }

  lemma ReplayRecordIs(run: RunConfig, begun: Moved, page: seq<Record>, full: bool, env: Env)
    requires begun.owner.control == ReplayingPage(page, full) && page != []
    ensures var sequence, offered := page[0].sequence, begun.owner.(offers := begun.owner.offers + [page[0].sequence]);
            Go(run, begun, Continue, env).owner
            == (if !ValidJournalRecord(run, page[0], begun.owner.cursor + 1) then begun.owner.(control := Stopped)
                else if env.fails then offered.(control := Releasing)
                else offered.(sequence := sequence, cursor := sequence, control := ReplayingPage(page[1..], full)))
    ensures Go(run, begun, Continue, env).store == begun.store
    ensures ValidJournalRecord(run, page[0], begun.owner.cursor + 1) ==> page[0].sequence == begun.owner.cursor + 1
  {
    hide Save;
  }
}
