/** Safety of the run protocol over all interleavings of owners. */
module RunSafety {
  import opened Options
  import opened Runlog
  import opened CheckpointStore
  import opened StoreSafety
  import opened RunProtocol
  import opened RunInvariant

  // ----- what one step of one owner keeps -----

  ghost predicate StepOK(run: RunConfig, store: RunStore, owner: Owner, moved: Moved) {
    && SoundStore(run, moved.store)
    && OwnerOK(run, moved.store, moved.owner)
    && store.head.Some? && moved.store.head.Some?
    && moved.store.head.value.claimSequence == store.head.value.claimSequence
    && moved.owner.checkpoint.claimSequence == owner.checkpoint.claimSequence
    && (moved.store == store || owner.checkpoint.claimSequence == store.head.value.claimSequence)
    && moved.owner.start == owner.start && owner.offers <= moved.owner.offers
    && store.history <= moved.store.history && store.journal <= moved.store.journal
    && (moved.store.head.value.confirmedSequence == store.head.value.confirmedSequence
        || moved.store.head.value.confirmedSequence <= moved.owner.cursor)
  }

  lemma SaveCases(store: RunStore, owner: Owner, record: Checkpoint, env: Env, next: Control, fallback: Control)
    requires WellFormed(store) && store.head.Some?
    ensures var moved := Save(store, owner, record, env, next, fallback);
            || moved == Moved(store, owner.(control := fallback))
            || (&& WellFormed(moved.store) && moved.store.head.Some?
                && moved.store == Push(store, moved.store.head.value)
                && Bare(moved.store.head.value) == Bare(record.(version := record.version + 1))
                && record.claimSequence == store.head.value.claimSequence
                && moved.owner == owner.(checkpoint := record.(version := record.version + 1), control := next))
  {
    ApplyKeepsWellFormed(store, Call(DoWrite(record, record.version, Terminal(record.status)), env.now));
  }

  /** Agreement does not look at leases or history. */
  lemma OwnerOKIgnoresLease(run: RunConfig, left: RunStore, right: RunStore, owner: Owner)
    requires left.head.Some? && right.head.Some? && left.journal == right.journal
    requires Bare(left.head.value) == Bare(right.head.value)
    requires OwnerOK(run, left, owner)
    ensures OwnerOK(run, right, owner)
  {
    var l, r := left.head.value, right.head.value;
    assert l.payload == r.payload && l.confirmedSequence == r.confirmedSequence && l.status == r.status
        && l.ownerID == r.ownerID && l.claimSequence == r.claimSequence;
  }

  lemma SoundIgnoresLease(run: RunConfig, left: Checkpoint, right: Checkpoint, journal: seq<Record>)
    requires right
      == left.(version := right.version, leaseExpiresAt := right.leaseExpiresAt, leaseDuration := right.leaseDuration)
    requires Sound(run, left, journal)
    ensures Sound(run, right, journal)
  {
  }

  lemma PushKeepsSound(run: RunConfig, store: RunStore, record: Checkpoint)
    requires SoundStore(run, store) && store.head.Some? && WellFormed(Push(store, record))
    requires Sound(run, record, store.journal) && KeepsIntent(store.head.value, record)
    ensures SoundStore(run, Push(store, record))
  {
    SoundIgnoresLease(run, record, record.(leaseDuration := 0), store.journal);
    var history := store.history;
    assert SameButLaterLease(history[|history| - 1], store.head.value);
  }

  /** Saving a sound record keeps everything, whether or not the store takes it. */
  lemma SaveKeeps(run: RunConfig, store: RunStore, owner: Owner, record: Checkpoint, env: Env, next: Control,
                  fallback: Control)
    requires SoundStore(run, store) && store.head.Some?
    requires record.claimSequence == owner.checkpoint.claimSequence
    requires record.claimSequence == store.head.value.claimSequence ==>
               && Sound(run, record, store.journal) && KeepsIntent(store.head.value, record)
               && (record.confirmedSequence <= owner.cursor
                     || record.confirmedSequence == store.head.value.confirmedSequence)
               && OwnerOK(run, store.(head := Some(record.(version := record.version + 1))),
                          owner.(checkpoint := record.(version := record.version + 1), control := next))
    requires OwnerOK(run, store, owner.(control := fallback))
    ensures StepOK(run, store, owner, Save(store, owner, record, env, next, fallback))
  {
    var moved := Save(store, owner, record, env, next, fallback);
    SaveCases(store, owner, record, env, next, fallback);
    if moved != Moved(store, owner.(control := fallback)) {
      SavedKeeps(run, store, owner, record, moved);
    }
  }

  lemma SavedKeeps(run: RunConfig, store: RunStore, owner: Owner, record: Checkpoint, moved: Moved)
    requires SoundStore(run, store) && store.head.Some?
    requires record.claimSequence == owner.checkpoint.claimSequence == store.head.value.claimSequence
    requires Sound(run, record, store.journal) && KeepsIntent(store.head.value, record)
    requires record.confirmedSequence <= owner.cursor || record.confirmedSequence == store.head.value.confirmedSequence
    requires WellFormed(moved.store) && moved.store.head.Some?
    requires moved.store == Push(store, moved.store.head.value)
    requires Bare(moved.store.head.value) == Bare(record.(version := record.version + 1))
    requires moved.owner == owner.(checkpoint := record.(version := record.version + 1), control := moved.owner.control)
    requires OwnerOK(run, store.(head := Some(record.(version := record.version + 1))), moved.owner)
    ensures StepOK(run, store, owner, moved)
  {
    var stored, head := record.(version := record.version + 1), moved.store.head.value;
    assert head == stored.(leaseExpiresAt := head.leaseExpiresAt, leaseDuration := head.leaseDuration);
    OwnerOKIgnoresLease(run, store.(head := Some(stored)), moved.store, moved.owner);
    SoundIgnoresLease(run, record, head, store.journal);
    PushKeepsSound(run, store, head);
  }

  // ----- the fenced append -----

  lemma EmitCases(run: RunConfig, store: RunStore, owner: Owner, event: Event, purpose: Purpose, env: Env)
    requires ValidRun(run) && SoundStore(run, store) && store.head.Some? && Local(owner)
    requires owner.control != Stopped && owner.control != Releasing && !owner.control.Delivering?
    requires owner.checkpoint.claimSequence == store.head.value.claimSequence ==>
               0 <= owner.sequence <= |store.journal| && Stamped(run, Stamp(run, event, owner.sequence + 1, env.now))
    ensures var moved, sequence := Emit(run, store, owner, event, purpose, env), owner.sequence + 1;
            var entry := Entry(run, Stamp(run, event, sequence, env.now));
            || moved == Moved(store, owner.(sequence := sequence, control := Stopped))
            || moved == Moved(store, owner.(sequence := sequence, control := Releasing))
            || (&& owner.checkpoint.claimSequence == store.head.value.claimSequence && store.head.value.ownerID != ""
                && moved.owner
                     == owner.(sequence := sequence,
                       control := Delivering(Stamp(run, event, sequence, env.now), purpose))
                && GenuineJournal(run, moved.store.journal) && WellFormed(moved.store)
                && moved.store
                     == store.(journal := if sequence == |store.journal| + 1 then store.journal + [entry]
                       else store.journal)
                && moved.store.journal[sequence - 1] == entry)
  {
    hide Resumable, Sound, Chained, Stamped, GenuineJournal, WellFormed;
    var stamped := Stamp(run, event, owner.sequence + 1, env.now);
    var entry, fence := Entry(run, stamped), Fence(owner.checkpoint.ownerID, owner.checkpoint.claimSequence);
    var written, moved := Journaled(store, entry, fence, env.now), Emit(run, store, owner, event, purpose, env);
    assert stamped.sequence == owner.sequence + 1;
    assert moved == Emitted(store, owner, stamped, purpose, Attempt(store, env, written));
    hide Emit, Stamp, Entry, Local;
    if !env.fails && written.error.None? {
      AcceptedAppend(run, store, stamped, fence, env.now);
      hide Journaled, SoundStore;
    } else {
      hide Journaled, SoundStore;
    }
  }

  lemma AcceptedAppend(run: RunConfig, store: RunStore, event: Event, fence: Fence, now: Time)
    requires ValidRun(run) && SoundStore(run, store) && store.head.Some?
    requires Journaled(store, Entry(run, event), fence, now).error.None?
    requires fence.claimSequence == store.head.value.claimSequence ==>
               Stamped(run, event) && 1 <= event.sequence <= |store.journal| + 1
    ensures fence.claimSequence == store.head.value.claimSequence && store.head.value.ownerID == fence.ownerID != ""
    ensures var after := Journaled(store, Entry(run, event), fence, now).store;
            && GenuineJournal(run, after.journal) && WellFormed(after)
            && after == store.(journal :=
                 if event.sequence == |store.journal| + 1 then store.journal + [Entry(run, event)] else store.journal)
            && after.journal[event.sequence - 1] == Entry(run, event)
  {
    hide WellFormed;
    EntryIsGenuine(run, event);
    AppendAt(run, store.journal, Entry(run, event));
    ApplyKeepsWellFormed(store, Call(DoAppend(Entry(run, event), fence), now));
  }

  /** Journaling the pending event, or again a pending event already journaled,
      leaves the head sound. */
  lemma JournalingKeepsSound(run: RunConfig, head: Checkpoint, journal: seq<Record>, entry: Record)
    requires Sound(run, head, journal) && head.status == Running
    requires entry.sequence == |journal| + 1
    requires head.payload.pendingEvent.Some? && |journal| == head.confirmedSequence ==>
               entry == Entry(run, head.payload.pendingEvent.value)
    requires head.payload.pendingEvent.None? ==> head.payload.interruptProgress.None? && !entry.eventType.WorkflowEnded?
    requires |journal| > head.confirmedSequence ==>
               head.payload.interruptProgress.None? && head.payload.pendingTerm.None? && !entry.eventType.WorkflowEnded?
    ensures Sound(run, head, journal + [entry])
  {
  }

  // ----- one lemma per step -----

  ghost predicate Stepping(run: RunConfig, store: RunStore, owner: Owner, env: Env) {
    ValidRun(run) && SoundStore(run, store) && OwnerOK(run, store, owner) && owner.control != Stopped && env.now > 0
  }

  lemma FreshStamp(run: RunConfig, event: Event, sequence: int, now: Time) returns (stamped: Event)
    requires ValidRun(run) && Fresh(event) && now > 0
    ensures stamped == Stamp(run, event, sequence, now)
    ensures Stamped(run, stamped) && stamped.sequence == sequence && stamped.eventType == event.eventType
  {
    stamped := Stamp(run, event, sequence, now);
  }

  /** Without a terminal intent a running head has no terminal event behind it. */
  lemma NothingEndedYet(run: RunConfig, head: Checkpoint, journal: seq<Record>)
    requires Sound(run, head, journal) && !head.status.Ended? && head.payload.pendingTerm.None?
    ensures forall i :: 0 <= i < |journal| ==> !journal[i].eventType.WorkflowEnded?
  {
  }

  /** A record with a new pending event, everything before it journaled and confirmed. */
  lemma NewPendingIsSound(run: RunConfig, record: Checkpoint, journal: seq<Record>, event: Event)
    requires record.identity == run.identity && record.claimSequence >= 1 && record.status == Running
    requires record.payload.eventCursor == record.confirmedSequence == |journal|
    requires record.payload.pendingEvent == Some(event) && record.pendingSequence == event.sequence == |journal| + 1
    requires Stamped(run, event)
    requires forall i :: 0 <= i < |journal| ==> !journal[i].eventType.WorkflowEnded?
    requires match record.payload.pendingTerm
             case Some(outcome) => event.eventType == WorkflowEnded(outcome)
             case None =>
               && PlainType(event.eventType)
               && record.payload.interruptProgress.None? && record.payload.pendingInterrupts == []
    ensures Sound(run, record, journal)
  {
  }

  lemma AdvanceKeeps(run: RunConfig, store: RunStore, owner: Owner, pending: Event, replayStatus: ReplayStatus,
                     purpose: Purpose, fallback: Control, env: Env)
    requires Stepping(run, store, owner, env)
    requires (owner.control == Ready && purpose == Advance && fallback == Ready)
          || ((owner.control == Starting || owner.control == Resuming) && purpose == Begin && fallback == Stopped)
    requires Stamped(run, pending) && pending.sequence == owner.sequence + 1 && PlainType(pending.eventType)
    ensures var record := SaveRecord(run, owner, Some(pending), None, replayStatus, env);
            StepOK(run, store, owner, Save(store, owner, record, env, Journaling(pending, purpose), fallback))
  {
    hide WellFormed, StepOK;
    var record := SaveRecord(run, owner, Some(pending), None, replayStatus, env);
    if record.claimSequence == store.head.value.claimSequence {
      NothingEndedYet(run, store.head.value, store.journal);
      NewPendingIsSound(run, record, store.journal, pending);
    }
    SaveKeeps(run, store, owner, record, env, Journaling(pending, purpose), fallback);
  }

  /** An attempt starts by committing an event that says so. */
  lemma AttemptKeeps(run: RunConfig, store: RunStore, owner: Owner, event: Event, env: Env)
    requires Stepping(run, store, owner, env) && (owner.control == Starting || owner.control == Resuming)
    requires Fresh(event) && PlainType(event.eventType)
    ensures StepOK(run, store, owner, BeginAttempt(run, store, owner, event, env))
  {
    hide StepOK, SoundStore, OwnerOK;
    var pending := FreshStamp(run, event, owner.sequence + 1, env.now);
    hide Stamp, SaveRecord, Save;
    AdvanceKeeps(run, store, owner, pending, ReplayStatusFor(event.eventType), Begin, Stopped, env);
  }

  lemma ConcludeKeeps(run: RunConfig, store: RunStore, owner: Owner, outcome: Outcome, pending: Event, env: Env)
    requires Stepping(run, store, owner, env) && MayConclude(owner.control)
    requires Stamped(run, pending) && pending.sequence == owner.sequence + 1
    requires pending.eventType == WorkflowEnded(outcome)
    ensures var record := SaveRecord(run, owner, Some(pending), Some(outcome), owner.replayStatus, env);
            StepOK(run, store, owner, Save(store, owner, record, env, Journaling(pending, Conclude(outcome)), Stopped))
  {
    hide StepOK, WellFormed, GenuineJournal, Chained, BatchShaped, EndsWithBatch;
    var record := SaveRecord(run, owner, Some(pending), Some(outcome), owner.replayStatus, env);
    if record.claimSequence == store.head.value.claimSequence {
      NothingEndedYet(run, store.head.value, store.journal);
      NewPendingIsSound(run, record, store.journal, pending);
    }
    SaveKeeps(run, store, owner, record, env, Journaling(pending, Conclude(outcome)), Stopped);
  }

  lemma BatchEventMatches(run: RunConfig, event: Event, sequence: int, now: Time)
    requires ValidRun(run) && Fresh(event) && event.origin == "" && now > 0
    ensures var stamped := Stamp(run, event, sequence, now);
            && InterruptIdentityMatches(run, stamped) && Stamped(run, stamped)
            && stamped.sequence == sequence && stamped.eventType == event.eventType
            && stamped.payload == event.payload && stamped.summary == event.summary
            && (event.source != "" ==> stamped.source == event.source)
  {
  }

  /** The events computed for a batch are stamped and match their waits. */
  lemma BatchEventsMatch(run: RunConfig, waits: seq<PendingInterrupt>, first: InterruptRequest, sequence: int,
                         now: Time)
    requires ValidRun(run) && waits != [] && now > 0
    ensures BatchShaped(run, waits, BatchEvents(run, waits, first, sequence, now))
    ensures AllStamped(run, BatchEvents(run, waits, first, sequence, now))
    ensures BatchEvents(run, waits, first, sequence, now)[0].sequence == sequence + 1
  {
    hide Stamp;
    var events := BatchEvents(run, waits, first, sequence, now);
    forall i | 0 <= i < |waits|
      ensures && InterruptIdentityMatches(run, events[i]) && Stamped(run, events[i])
              && events[i].sequence == sequence + i + 1 && events[i].eventType == GuardInterrupted
              && RequestMatches(events[i], waits[i].request)
    {
      BatchEventMatches(run, GuardEvent(waits[i].request), sequence + i + 1, now);
    }
    BatchEventMatches(run, WorkflowInterruptEvent(first), sequence + |waits| + 1, now);
  }

  lemma BeginInterruptsKeeps(run: RunConfig, store: RunStore, owner: Owner, waits: seq<PendingInterrupt>,
                             first: InterruptRequest, env: Env)
    requires Stepping(run, store, owner, env)
    requires owner.control == Ready && waits != []
    ensures StepOK(run, store, owner, Step(run, store, owner, BeginInterrupts(waits, first), env))
  {
    hide SoundStore, GuardEvents, WellFormed, Renewed, Deliver, EmitStamped;
    BatchEventsMatch(run, waits, first, owner.sequence, env.now);
  }

  lemma ObservedKeeps(run: RunConfig, store: RunStore, owner: Owner, event: Event, purpose: Purpose, env: Env)
    requires Stepping(run, store, owner, env) && Fresh(event) && PlainType(event.eventType)
    requires (owner.control == Ready && purpose == Observe) || (owner.control == Loading && purpose == Load)
    ensures StepOK(run, store, owner, Emit(run, store, owner, event, purpose, env))
  {
    hide StepOK, SoundStore;
    EmitCases(run, store, owner, event, purpose, env);
    var moved := Emit(run, store, owner, event, purpose, env);
    if moved.owner.control.Delivering? {
      var stamped := FreshStamp(run, event, owner.sequence + 1, env.now);
      hide Stamp;
      ObservedIsJournaled(run, store, owner, stamped, purpose, moved);
    } else {
      RefusedKeeps(run, store, owner, moved);
    }
  }

  /** An event that is not saved ahead extends the journal beyond the durable cursor. */
  lemma ObservedIsJournaled(run: RunConfig, store: RunStore, owner: Owner, event: Event, purpose: Purpose, moved: Moved)
    requires SoundStore(run, store) && OwnerOK(run, store, owner) && Stamped(run, event) && PlainType(event.eventType)
    requires (owner.control == Ready && purpose == Observe) || (owner.control == Loading && purpose == Load)
    requires event.sequence == owner.sequence + 1
    requires owner.checkpoint.claimSequence == store.head.value.claimSequence && store.head.value.ownerID != ""
    requires moved.owner == owner.(sequence := owner.sequence + 1, control := Delivering(event, purpose))
    requires GenuineJournal(run, moved.store.journal) && WellFormed(moved.store)
    requires moved.store
      == store.(journal := if owner.sequence == |store.journal| then store.journal + [Entry(run, event)]
        else store.journal)
    requires moved.store.journal[owner.sequence] == Entry(run, event)
    ensures StepOK(run, store, owner, moved)
  {
    hide WellFormed;
    JournalingKeepsSound(run, store.head.value, store.journal, Entry(run, event));
  }

  lemma JournalKeeps(run: RunConfig, store: RunStore, owner: Owner, env: Env)
    requires Stepping(run, store, owner, env) && owner.control.Journaling?
    ensures StepOK(run, store, owner, Proceed(run, store, owner, env))
  {
    hide WellFormed, SoundStatus;
    var event, purpose := owner.control.event, owner.control.purpose;
    hide Stamp, StepOK, Emit;
    if owner.checkpoint.claimSequence == store.head.value.claimSequence {
      PendingIsUnderWay(run, store, owner, event, purpose);
      PendingIsStamped(run, store.head.value, store.journal, event);
      StampIsFixpoint(run, event, owner.sequence + 1, env.now, env.now);
    }
    LocalAndBound(run, store, owner);
    hide OwnerOK, SoundStore, Sound, Stamped, Entry;
    EmitCases(run, store, owner, event, purpose, env);
    var moved := Emit(run, store, owner, event, purpose, env);
    if moved.owner.control.Delivering? {
      JournaledKeeps(run, store, owner, event, purpose, moved);
    } else {
      RefusedKeeps(run, store, owner, moved);
    }
  }

  lemma LocalAndBound(run: RunConfig, store: RunStore, owner: Owner)
    requires SoundStore(run, store) && OwnerOK(run, store, owner) && owner.control.Journaling?
    ensures Local(owner) && store.head.Some? && owner.sequence == owner.cursor
    ensures owner.checkpoint.claimSequence == store.head.value.claimSequence ==> 0 <= owner.sequence <= |store.journal|
  {
    hide BatchShaped, Stamped, Entry, Chained, WellFormed, BatchUnderWay, UnderWay;
  }

  lemma RefusedKeeps(run: RunConfig, store: RunStore, owner: Owner, moved: Moved)
    requires SoundStore(run, store) && OwnerOK(run, store, owner) && owner.control != Stopped
    requires owner.control != Suspended
    requires moved.store == store
    requires moved.owner == owner.(sequence := moved.owner.sequence, control := moved.owner.control)
    requires moved.owner.control == Stopped || moved.owner.control == Releasing
    ensures StepOK(run, store, owner, moved)
  {
    hide SoundStore, UnderWay, AtWork, InStep, BatchUnderWay, Entry, Stamped;
  }

  /** The pending event has been journaled, by this append or by an earlier one. */
  lemma JournaledKeeps(run: RunConfig, store: RunStore, owner: Owner, event: Event, purpose: Purpose, moved: Moved)
    requires SoundStore(run, store) && OwnerOK(run, store, owner) && owner.control == Journaling(event, purpose)
    requires owner.checkpoint.claimSequence == store.head.value.claimSequence && store.head.value.ownerID != ""
    requires moved.owner == owner.(sequence := owner.sequence + 1, control := Delivering(event, purpose))
    requires GenuineJournal(run, moved.store.journal) && WellFormed(moved.store)
    requires moved.store
      == store.(journal := if owner.sequence == |store.journal| then store.journal + [Entry(run, event)]
        else store.journal)
    requires moved.store.journal[owner.sequence] == Entry(run, event)
    ensures StepOK(run, store, owner, moved)
  {
    JournaledAgrees(run, store, owner, event, purpose, moved);
    if owner.sequence == |store.journal| {
      PendingIsUnderWay(run, store, owner, event, purpose);
      JournalingKeepsSound(run, store.head.value, store.journal, Entry(run, event));
    }
    hide OwnerOK, Sound, Entry;
  }

  lemma PendingIsUnderWay(run: RunConfig, store: RunStore, owner: Owner, event: Event, purpose: Purpose)
    requires SoundStore(run, store) && OwnerOK(run, store, owner) && owner.control == Journaling(event, purpose)
    requires owner.checkpoint.claimSequence == store.head.value.claimSequence
    ensures var head := store.head.value;
            && head.status == Running && head.payload.pendingEvent == Some(event)
            && head.confirmedSequence == owner.sequence
            && event.sequence == owner.sequence + 1 && Sound(run, head, store.journal)
  {
    hide BatchShaped, Stamped, Entry, BatchUnderWay, Chained, GenuineJournal, WellFormed;
  }

  lemma JournaledAgrees(run: RunConfig, store: RunStore, owner: Owner, event: Event, purpose: Purpose, moved: Moved)
    requires SoundStore(run, store) && OwnerOK(run, store, owner) && owner.control == Journaling(event, purpose)
    requires owner.checkpoint.claimSequence == store.head.value.claimSequence && store.head.value.ownerID != ""
    requires moved.owner == owner.(sequence := owner.sequence + 1, control := Delivering(event, purpose))
    requires moved.store
      == store.(journal := if owner.sequence == |store.journal| then store.journal + [Entry(run, event)]
        else store.journal)
    requires owner.sequence < |moved.store.journal| && moved.store.journal[owner.sequence] == Entry(run, event)
    ensures OwnerOK(run, moved.store, moved.owner)
  {
    PendingIsUnderWay(run, store, owner, event, purpose);
    PendingIsStamped(run, store.head.value, store.journal, event);
    hide SoundStore, Stamped, Entry, BatchUnderWay;
  }

  lemma PendingIsStamped(run: RunConfig, head: Checkpoint, journal: seq<Record>, event: Event)
    requires Sound(run, head, journal) && head.payload.pendingEvent == Some(event)
    ensures Stamped(run, event)
  {
  }

  lemma DeliverKeeps(run: RunConfig, store: RunStore, owner: Owner, env: Env)
    requires Stepping(run, store, owner, env) && owner.control.Delivering?
    ensures StepOK(run, store, owner, Proceed(run, store, owner, env))
  {
    var event, purpose := owner.control.event, owner.control.purpose;
    var after := Deliver(owner, event, purpose, env);
    DeliveryIsContiguous(owner, event, purpose, env);
    if owner.checkpoint.claimSequence == store.head.value.claimSequence {
      DeliveredAgrees(run, store, owner, event, purpose, env);
    }
    assert Proceed(run, store, owner, env) == Moved(store, after);
  }

  lemma DeliveryIsContiguous(owner: Owner, event: Event, purpose: Purpose, env: Env)
    requires Local(owner) && owner.control == Delivering(event, purpose)
    ensures Local(Deliver(owner, event, purpose, env))
  {
  }

  lemma DeliveredAgrees(run: RunConfig, store: RunStore, owner: Owner, event: Event, purpose: Purpose, env: Env)
    requires store.head.Some? && Local(owner) && owner.control == Delivering(event, purpose)
    requires Current(run, store, owner)
    ensures Current(run, store, Deliver(owner, event, purpose, env))
  {
    hide Entry;
  }

  lemma RenewalOnlyMovesTheLease(store: RunStore, lease: Lease, now: Time)
    requires store.head.Some?
    ensures var renewed := Renewed(store, lease, now).store;
            && renewed.head.Some?
            && renewed == store.(head := renewed.head)
            && renewed.head.value == store.head.value.(leaseExpiresAt := renewed.head.value.leaseExpiresAt)
  {
  }

  lemma RenewKeeps(run: RunConfig, store: RunStore, owner: Owner, env: Env)
    requires Stepping(run, store, owner, env)
    ensures StepOK(run, store, owner, Step(run, store, owner, Renew, env))
  {
    hide WellFormed;
    var lease := Lease(run.identity.runID, owner.checkpoint.ownerID, owner.checkpoint.claimSequence, env.now
      + LeaseOf(run), run.leaseDuration);
    var renewed := Renewed(store, lease, env.now).store;
    hide Current, Sound, Renewed;
    ApplyKeepsWellFormed(store, Call(DoRenew(lease), env.now));
    RenewalOnlyMovesTheLease(store, lease, env.now);
    OwnerOKIgnoresLease(run, store, renewed, owner);
    SoundIgnoresLease(run, store.head.value, renewed.head.value, store.journal);
  }

  /** Giving up the ownership changes nothing else. */
  lemma ReleasedIsSound(run: RunConfig, head: Checkpoint, record: Checkpoint, journal: seq<Record>)
    requires Sound(run, head, journal) && head.status == Running
    requires record == head.(payload := record.payload, ownerID := "", leaseExpiresAt := 0, leaseDuration := 0,
                             updatedAt := record.updatedAt)
    requires record.payload == head.payload.(ownerID := "", leaseExpiresAt := 0)
    ensures Sound(run, record, journal) && KeepsIntent(head, record)
  {
    hide BatchShaped, AllStamped, JournaledSoFar, Stamped, Entry;
  }

  lemma ReleaseKeeps(run: RunConfig, store: RunStore, owner: Owner, env: Env)
    requires Stepping(run, store, owner, env) && owner.control == Releasing
    ensures StepOK(run, store, owner, Proceed(run, store, owner, env))
  {
    hide StepOK, Save;
    var record := ReleaseRecord(owner, env);
    if owner.checkpoint.claimSequence == store.head.value.claimSequence {
      ReleasedIsSound(run, store.head.value, record, store.journal);
    }
    StoppingIsOK(run, store, owner);
    hide Sound, SoundStore, Stands;
    SaveKeeps(run, store, owner, record, env, Stopped, Stopped);
  }

  lemma ListKeeps(run: RunConfig, store: RunStore, owner: Owner, env: Env)
    requires Stepping(run, store, owner, env) && owner.control == Reconciling
    ensures StepOK(run, store, owner, Proceed(run, store, owner, env))
  {
    assert Proceed(run, store, owner, env) == Moved(store, ListPage(run, store, owner, env));
    hide Proceed, SoundStore, OwnerOK;
    ListedOwnerOK(run, store, owner, env);
  }

  lemma ListedOwnerOK(run: RunConfig, store: RunStore, owner: Owner, env: Env)
    requires SoundStore(run, store) && ValidRun(run) && OwnerOK(run, store, owner) && owner.control == Reconciling
    ensures OwnerOK(run, store, ListPage(run, store, owner, env))
  {
    ListedIsLocal(run, store, owner, env);
    if owner.checkpoint.claimSequence == store.head.value.claimSequence {
      HeadIsRunning(run, store, owner);
      ReconcilingFacts(run, store, owner);
      NextPageIs(run, store, owner);
      ListedAgrees(run, store, owner, NextPage(store, owner, run.identity.runID));
    }
    hide SoundStore, Local, Current, NextPage;
  }

  lemma ReconcilingFacts(run: RunConfig, store: RunStore, owner: Owner)
    requires SoundStore(run, store) && OwnerOK(run, store, owner) && owner.control == Reconciling
    requires owner.checkpoint.claimSequence == store.head.value.claimSequence
    ensures Current(run, store, owner) && 0 <= owner.cursor <= |store.journal| && GenuineJournal(run, store.journal)
    ensures store.head.value.payload.interruptProgress.Some? ==> |store.journal| == owner.cursor
  {
    hide BatchShaped, Stamped, Entry, Chained, WellFormed, BatchUnderWay;
  }

  lemma NextPageIs(run: RunConfig, store: RunStore, owner: Owner)
    requires ValidRun(run) && GenuineJournal(run, store.journal) && 0 <= owner.cursor <= |store.journal|
    ensures var page := NextPage(store, owner, run.identity.runID);
            && owner.cursor + |page| <= |store.journal| && page == store.journal[owner.cursor..owner.cursor + |page|]
            && (|page| == RECONCILE_PAGE_SIZE || owner.cursor + |page| == |store.journal|)
  {
    MatchingSuffix(store.journal, run.identity.runID, owner.cursor);
  }

  lemma ListedIsLocal(run: RunConfig, store: RunStore, owner: Owner, env: Env)
    requires Local(owner) && owner.control == Reconciling
    ensures Local(ListPage(run, store, owner, env))
  {
  }

  lemma ListedAgrees(run: RunConfig, store: RunStore, owner: Owner, page: seq<Record>)
    requires store.head.Some? && Sound(run, store.head.value, store.journal)
    requires owner.control == Reconciling && Local(owner) && Current(run, store, owner)
    requires owner.cursor + |page| <= |store.journal| && page == store.journal[owner.cursor..owner.cursor + |page|]
    requires |page| == RECONCILE_PAGE_SIZE || owner.cursor + |page| == |store.journal|
    requires store.head.value.payload.interruptProgress.Some? ==> |store.journal| == owner.cursor
    ensures page == [] ==> Current(run, store, owner.(control := Recovered(owner)))
    ensures page != [] ==> Current(run, store, owner.(control := ReplayingPage(page, |page| == RECONCILE_PAGE_SIZE)))
  {
  }

  // ----- confirming -----

  /** A record that confirms the whole journal, with nothing pending. */
  lemma ConfirmedIsSound(run: RunConfig, record: Checkpoint, journal: seq<Record>)
    requires record.identity == run.identity && record.claimSequence >= 1 && record.status == Running
    requires record.payload.eventCursor == record.confirmedSequence && 0 <= record.confirmedSequence <= |journal|
    requires record.payload.pendingEvent.None? && record.payload.pendingTerm.None? && record.pendingSequence == 0
    requires forall i :: 0 <= i < |journal| ==> !journal[i].eventType.WorkflowEnded?
    requires match record.payload.interruptProgress
             case None => record.payload.pendingInterrupts == []
             case Some(progress) =>
               && record.confirmedSequence == |journal| && 0 < progress.next <= |progress.events|
               && BatchShaped(run, record.payload.pendingInterrupts, progress.events)
               && AllStamped(run, progress.events) && JournaledSoFar(run, journal, progress)
               && record.confirmedSequence == progress.events[0].sequence + progress.next - 1
    ensures Sound(run, record, journal)
  {
  }

  lemma ConfirmAdvanceKeeps(run: RunConfig, store: RunStore, owner: Owner, event: Event, purpose: Purpose,
                            fallback: Control, env: Env)
    requires Stepping(run, store, owner, env) && owner.control == Confirming(event, purpose)
    requires (purpose == Advance && fallback == Ready) || (purpose == Begin && fallback == Stopped)
    ensures StepOK(run, store, owner, ConfirmAdvance(run, store, owner, event, fallback, env))
  {
    hide StepOK;
    var replayStatus := ReplayStatusFor(event.eventType);
    SaveAdvancedKeeps(run, store, owner, event, purpose, replayStatus, fallback, env);
    var saved := Save(store, owner, SaveRecord(run, owner, None, None, replayStatus, env), env, Ready, fallback);
    ReplayStatusKeeps(run, store, owner, saved, replayStatus);
  }

  /** What an owner says about replaying does not matter. */
  lemma ReplayStatusKeeps(run: RunConfig, store: RunStore, owner: Owner, moved: Moved, replayStatus: ReplayStatus)
    requires StepOK(run, store, owner, moved) && (moved.owner.control == Ready || moved.owner.control == Stopped)
    ensures StepOK(run, store, owner, moved.(owner := moved.owner.(replayStatus := replayStatus)))
  {
    hide SoundStore, UnderWay, BatchUnderWay, Entry, Stamped;
  }

  lemma SaveAdvancedKeeps(run: RunConfig, store: RunStore, owner: Owner, event: Event, purpose: Purpose,
                          replayStatus: ReplayStatus, fallback: Control, env: Env)
    requires Stepping(run, store, owner, env) && owner.control == Confirming(event, purpose)
    requires (purpose == Advance && fallback == Ready) || (purpose == Begin && fallback == Stopped)
    ensures var record := SaveRecord(run, owner, None, None, replayStatus, env);
            StepOK(run, store, owner, Save(store, owner, record, env, Ready, fallback))
  {
    hide WellFormed, LeaseExpiry, StepOK;
    var record := SaveRecord(run, owner, None, None, replayStatus, env);
    if record.claimSequence == store.head.value.claimSequence {
      NothingEndedYet(run, store.head.value, store.journal);
      ConfirmedIsSound(run, record, store.journal);
    }
    SaveKeeps(run, store, owner, record, env, Ready, fallback);
  }

  /** What a sound head says about a batch whose next event is pending. */
  lemma DurableBatch(run: RunConfig, head: Checkpoint, journal: seq<Record>)
    requires Sound(run, head, journal) && head.status == Running
    requires head.payload.pendingTerm.None? && head.payload.pendingEvent.Some? && head.payload.interruptProgress.Some?
    ensures var progress := head.payload.interruptProgress.value;
            && BatchShaped(run, head.payload.pendingInterrupts, progress.events) && AllStamped(run, progress.events)
            && 0 <= progress.next < |progress.events| && JournaledSoFar(run, journal, progress)
            && head.payload.pendingEvent.value == progress.events[progress.next]
            && head.confirmedSequence == progress.events[0].sequence + progress.next - 1
            && |journal| <= head.confirmedSequence + 1
  {
  }

  lemma JournaledExtends(run: RunConfig, journal: seq<Record>, progress: InterruptProgress)
    requires JournaledSoFar(run, journal, progress) && 0 <= progress.next < |progress.events|
    requires progress.events[0].sequence + progress.next <= |journal|
    requires journal[progress.events[0].sequence - 1 + progress.next] == Entry(run, progress.events[progress.next])
    ensures JournaledSoFar(run, journal, progress.(next := progress.next + 1))
  {
  }

  /** What a batch looks like after its pending event was delivered. */
  lemma BatchAdvances(run: RunConfig, store: RunStore, owner: Owner, event: Event, purpose: Purpose)
    requires SoundStore(run, store) && OwnerOK(run, store, owner) && owner.control == Confirming(event, purpose)
    requires owner.checkpoint.claimSequence == store.head.value.claimSequence
    requires purpose == Batch || purpose == Replay(None)
    requires owner.progress.Some?
    ensures BatchUnderWay(run, owner, store.journal) && owner.progress.value.next > 0
    ensures owner.cursor == |store.journal|
  {
    var head := store.head.value;
    assert head.payload.pendingEvent == Some(event) && head.payload.interruptProgress.Some?;
    DurableBatch(run, head, store.journal);
    var before := head.payload.interruptProgress.value;
    BatchMoves(run, store, owner, event, purpose, before);
    hide SoundStore, OwnerOK, BatchShaped, AllStamped, JournaledSoFar;
  }

  lemma BatchMoves(run: RunConfig, store: RunStore, owner: Owner, event: Event, purpose: Purpose,
                   before: InterruptProgress)
    requires OwnerOK(run, store, owner) && owner.control == Confirming(event, purpose)
    requires owner.checkpoint.claimSequence == store.head.value.claimSequence
    requires (purpose == Batch || purpose == Replay(None)) && owner.progress.Some?
    requires store.head.value.payload.interruptProgress == Some(before) && JournaledSoFar(run, store.journal, before)
    requires 0 <= before.next < |before.events| && event == before.events[before.next]
    requires store.head.value.confirmedSequence == before.events[0].sequence + before.next - 1
    requires forall i :: 0 <= i < |before.events| ==> before.events[i].sequence == before.events[0].sequence + i
    ensures owner.progress.value == before.(next := before.next + 1)
    ensures JournaledSoFar(run, store.journal, owner.progress.value)
    ensures owner.cursor == store.head.value.confirmedSequence + 1 <= |store.journal|
    ensures owner.interrupts == store.head.value.payload.pendingInterrupts
  {
    hide Entry, Stamped, BatchUnderWay, AtWork, InStep;
    JournaledExtends(run, store.journal, before);
  }

  /** The record that confirms a batch event is sound. */
  lemma BatchConfirmed(run: RunConfig, store: RunStore, owner: Owner, event: Event, purpose: Purpose,
                       record: Checkpoint, env: Env)
    requires SoundStore(run, store) && OwnerOK(run, store, owner) && owner.control == Confirming(event, purpose)
    requires owner.checkpoint.claimSequence == store.head.value.claimSequence
    requires purpose == Batch || purpose == Replay(None)
    requires record == SaveRecord(run, owner, None, None, owner.replayStatus, env)
    ensures Sound(run, record, store.journal)
    ensures owner.progress.Some? ==> BatchUnderWay(run, owner, store.journal) && owner.cursor == |store.journal|
    ensures purpose == Batch ==> owner.progress.Some?
    ensures store.head.value.ownerID != ""
  {
    HeadIsRunning(run, store, owner);
    NothingEndedYet(run, store.head.value, store.journal);
    if owner.progress.Some? {
      BatchAdvances(run, store, owner, event, purpose);
    }
    UnderWayFacts(run, store, owner, event, purpose);
    hide BatchShaped, AllStamped, JournaledSoFar, Entry, SoundStore, OwnerOK, Sound;
    ConfirmedIsSound(run, record, store.journal);
  }

  lemma HeadIsRunning(run: RunConfig, store: RunStore, owner: Owner)
    requires SoundStore(run, store) && OwnerOK(run, store, owner)
    requires owner.checkpoint.claimSequence == store.head.value.claimSequence
    requires owner.control != Stopped && owner.control != Suspended
    ensures store.head.value.status == Running && Sound(run, store.head.value, store.journal)
    ensures Bare(owner.checkpoint) == Bare(store.head.value)
    ensures owner.control.Confirming? ==> store.head.value.ownerID != ""
    ensures store.head.value.identity == run.identity && store.head.value.claimSequence >= 1
  {
    hide Stands, Local;
  }

  lemma UnderWayFacts(run: RunConfig, store: RunStore, owner: Owner, event: Event, purpose: Purpose)
    requires SoundStore(run, store) && OwnerOK(run, store, owner) && owner.control == Confirming(event, purpose)
    requires owner.checkpoint.claimSequence == store.head.value.claimSequence
    ensures 1 <= owner.cursor == store.head.value.confirmedSequence + 1 <= |store.journal|
    ensures UnderWay(run, store, owner, event, purpose)
    ensures owner.interrupts == store.head.value.payload.pendingInterrupts
    ensures owner.progress == Advanced(store.head.value.payload.interruptProgress, event, purpose)
    ensures (purpose == Batch || purpose == Replay(None)) && owner.progress.None? ==> owner.interrupts == []
    ensures purpose == Batch ==> owner.progress.Some?
  {
    hide BatchShaped, Stamped, Entry, Chained, GenuineJournal, WellFormed;
  }

  lemma InterruptingOK(run: RunConfig, store: RunStore, owner: Owner, record: Checkpoint)
    requires Local(owner) && owner.control.Confirming? && store.head.Some?
    requires BatchUnderWay(run, owner, store.journal) && owner.cursor == |store.journal|
    requires record.status == Running && record.ownerID != "" && record.payload.pendingTerm.None?
    ensures OwnerOK(run, store.(head := Some(record.(version := record.version + 1))),
                    owner.(checkpoint := record.(version := record.version + 1), control := Interrupting))
  {
    hide BatchShaped, AllStamped, JournaledSoFar;
  }

  lemma ConfirmingStuck(run: RunConfig, store: RunStore, owner: Owner, event: Event)
    requires SoundStore(run, store) && OwnerOK(run, store, owner) && owner.control == Confirming(event, Batch)
    ensures OwnerOK(run, store, owner.(control := Stuck))
  {
    hide SoundStore, BatchShaped, Entry, Stamped, BatchUnderWay;
  }

  /** Confirming an event that was not a terminal one keeps the absence of an intent. */
  lemma BatchIntent(run: RunConfig, store: RunStore, owner: Owner, event: Event, purpose: Purpose, record: Checkpoint,
                    env: Env)
    requires SoundStore(run, store) && OwnerOK(run, store, owner) && owner.control == Confirming(event, purpose)
    requires purpose == Batch || purpose == Replay(None)
    requires record == SaveRecord(run, owner, None, None, owner.replayStatus, env)
    ensures Local(owner) && store.head.Some? && owner.checkpoint.claimSequence == record.claimSequence
    ensures record.confirmedSequence <= owner.cursor && record.status == Running && record.payload.pendingTerm.None?
    ensures owner.checkpoint.claimSequence == store.head.value.claimSequence ==>
              KeepsIntent(store.head.value, record) && record.ownerID == store.head.value.ownerID
  {
    hide BatchShaped, Stamped, Entry, Chained, GenuineJournal, WellFormed;
  }

  lemma ConfirmBatchKeeps(run: RunConfig, store: RunStore, owner: Owner, event: Event, env: Env)
    requires Stepping(run, store, owner, env) && owner.control == Confirming(event, Batch)
    ensures StepOK(run, store, owner, Proceed(run, store, owner, env))
  {
    hide StepOK, BatchShaped, AllStamped, JournaledSoFar, Entry, SaveRecord, Save, SoundStore, OwnerOK;
    var record := SaveRecord(run, owner, None, None, owner.replayStatus, env);
    BatchIntent(run, store, owner, event, Batch, record, env);
    if owner.checkpoint.claimSequence == store.head.value.claimSequence {
      BatchConfirmed(run, store, owner, event, Batch, record, env);
      InterruptingOK(run, store, owner, record);
    }
    ConfirmingStuck(run, store, owner, event);
    hide Sound, KeepsIntent, Local;
    SaveKeeps(run, store, owner, record, env, Interrupting, Stuck);
  }

  lemma ReconcilingOK(run: RunConfig, store: RunStore, owner: Owner, record: Checkpoint)
    requires Local(owner) && owner.control.Confirming? && store.head.Some?
    requires record.status == Running && record.ownerID != "" && record.payload.pendingTerm.None?
    requires record.payload.pendingEvent.None?
    requires record.confirmedSequence == owner.cursor
    requires record.payload.interruptProgress == owner.progress && record.payload.pendingInterrupts == owner.interrupts
    ensures OwnerOK(run, store.(head := Some(record.(version := record.version + 1))),
                    owner.(checkpoint := record.(version := record.version + 1), control := Reconciling))
  {
  }

  lemma StoppingIsOK(run: RunConfig, store: RunStore, owner: Owner)
    requires OwnerOK(run, store, owner)
    ensures OwnerOK(run, store, owner.(control := Stopped))
  {
    hide Stands;
  }

  lemma ConfirmReplayKeeps(run: RunConfig, store: RunStore, owner: Owner, event: Event, env: Env)
    requires Stepping(run, store, owner, env) && owner.control == Confirming(event, Replay(None))
    ensures StepOK(run, store, owner, Proceed(run, store, owner, env))
  {
    hide StepOK, BatchShaped, AllStamped, JournaledSoFar, Entry, Save, SoundStore, OwnerOK, BatchUnderWay;
    hide Sound, KeepsIntent, Local;
    var record := SaveRecord(run, owner, None, None, owner.replayStatus, env);
    BatchIntent(run, store, owner, event, Replay(None), record, env);
    if owner.checkpoint.claimSequence == store.head.value.claimSequence {
      BatchConfirmed(run, store, owner, event, Replay(None), record, env);
      UnderWayFacts(run, store, owner, event, Replay(None));
      ReconcilingOK(run, store, owner, record);
    }
    StoppingIsOK(run, store, owner);
    hide SaveRecord;
    SaveKeeps(run, store, owner, record, env, Reconciling, Stopped);
  }

  lemma EndedIsSound(run: RunConfig, record: Checkpoint, journal: seq<Record>, outcome: Outcome)
    requires record.identity == run.identity && record.claimSequence >= 1 && record.status == Ended(outcome)
    requires record.ownerID == "" && record.pendingSequence == 0
    requires record.payload.eventCursor == record.confirmedSequence == |journal| > 0
    requires record.payload.pendingEvent.None? && record.payload.pendingTerm.None?
    requires journal[|journal| - 1].eventType == WorkflowEnded(outcome)
    requires forall i :: 0 <= i < |journal| - 1 ==> !journal[i].eventType.WorkflowEnded?
    ensures Sound(run, record, journal)
  {
  }

  /** The terminal event has been delivered: it is the last one journaled. */
  lemma EndingFacts(run: RunConfig, store: RunStore, owner: Owner, event: Event, outcome: Outcome)
    requires SoundStore(run, store) && OwnerOK(run, store, owner)
    requires owner.control == Confirming(event, Conclude(outcome))
      || owner.control == Confirming(event, Replay(Some(outcome)))
    requires owner.checkpoint.claimSequence == store.head.value.claimSequence
    ensures Bare(owner.checkpoint) == Bare(store.head.value) && store.head.value.identity == run.identity
    ensures store.head.value.payload.pendingTerm == Some(outcome)
    ensures owner.cursor == |store.journal| == store.head.value.confirmedSequence + 1 > 0
    ensures store.journal[|store.journal| - 1].eventType == WorkflowEnded(outcome)
    ensures forall i :: 0 <= i < |store.journal| - 1 ==> !store.journal[i].eventType.WorkflowEnded?
  {
    IntentBoundsJournal(run, store.head.value, store.journal);
  }

  lemma ConfirmEndingKeeps(run: RunConfig, store: RunStore, owner: Owner, event: Event, outcome: Outcome, env: Env)
    requires Stepping(run, store, owner, env)
    requires owner.control == Confirming(event, Conclude(outcome))
      || owner.control == Confirming(event, Replay(Some(outcome)))
    ensures StepOK(run, store, owner, Proceed(run, store, owner, env))
  {
    if owner.checkpoint.claimSequence == store.head.value.claimSequence {
      EndingFacts(run, store, owner, event, outcome);
    }
    EndKeeps(run, store, owner, outcome, env);
  }

  lemma EndKeeps(run: RunConfig, store: RunStore, owner: Owner, outcome: Outcome, env: Env)
    requires SoundStore(run, store) && store.head.Some? && Local(owner)
    requires owner.checkpoint.claimSequence <= store.head.value.claimSequence
    requires owner.checkpoint.claimSequence == store.head.value.claimSequence ==>
               && Bare(owner.checkpoint) == Bare(store.head.value) && store.head.value.identity == run.identity
               && store.head.value.payload.pendingTerm == Some(outcome)
               && owner.cursor == |store.journal| == store.head.value.confirmedSequence + 1 > 0
               && store.journal[|store.journal| - 1].eventType == WorkflowEnded(outcome)
               && (forall i :: 0 <= i < |store.journal| - 1 ==> !store.journal[i].eventType.WorkflowEnded?)
    ensures StepOK(run, store, owner,
      Save(store, owner, ClosingRecord(owner, Ended(outcome), owner.progress, env), env, Stopped, Stopped))
  {
    var record := ClosingRecord(owner, Ended(outcome), owner.progress, env);
    if record.claimSequence == store.head.value.claimSequence {
      EndedIsSound(run, record, store.journal, outcome);
    }
    SaveKeeps(run, store, owner, record, env, Stopped, Stopped);
  }

  lemma IntentBoundsJournal(run: RunConfig, head: Checkpoint, journal: seq<Record>)
    requires Sound(run, head, journal) && head.payload.pendingTerm.Some?
    ensures |journal| <= head.confirmedSequence + 1
    ensures head.payload.pendingEvent.Some?
    ensures head.payload.pendingEvent.value.eventType == WorkflowEnded(head.payload.pendingTerm.value)
    ensures forall i :: 0 <= i < |journal| && i != head.confirmedSequence ==> !journal[i].eventType.WorkflowEnded?
  {
  }

  lemma ConfirmKeeps(run: RunConfig, store: RunStore, owner: Owner, env: Env)
    requires Stepping(run, store, owner, env) && owner.control.Confirming?
    ensures StepOK(run, store, owner, Proceed(run, store, owner, env))
  {
    var event := owner.control.event;
    match owner.control.purpose
    case Observe =>
    case Load =>
    case Advance => ConfirmAdvanceKeeps(run, store, owner, event, Advance, Ready, env);
    case Begin => ConfirmAdvanceKeeps(run, store, owner, event, Begin, Stopped, env);
    case Batch => ConfirmBatchKeeps(run, store, owner, event, env);
    case Conclude(outcome) => ConfirmEndingKeeps(run, store, owner, event, outcome, env);
    case Replay(term) =>
      if term.Some? {
        ConfirmEndingKeeps(run, store, owner, event, term.value, env);
      } else {
        ConfirmReplayKeeps(run, store, owner, event, env);
      }
  }

  // ----- reconciling and interrupting -----

  lemma ReplayPageKeeps(run: RunConfig, store: RunStore, owner: Owner, env: Env)
    requires Stepping(run, store, owner, env) && owner.control.ReplayingPage?
    ensures StepOK(run, store, owner, Proceed(run, store, owner, env))
  {
    if owner.control.page == [] {
      PageDoneKeeps(run, store, owner, owner.control.full, env);
    } else {
      ReplayRecordKeeps(run, store, owner, owner.control.page, owner.control.full, env);
    }
  }

  lemma ReplayingFacts(run: RunConfig, store: RunStore, owner: Owner, page: seq<Record>, full: bool)
    requires SoundStore(run, store) && OwnerOK(run, store, owner) && owner.control == ReplayingPage(page, full)
    requires owner.checkpoint.claimSequence == store.head.value.claimSequence
    ensures owner.progress.None? && owner.interrupts == [] && store.head.value.payload.pendingTerm.None?
  {
    hide BatchShaped, Stamped, Entry, Chained, WellFormed, BatchUnderWay;
  }

  lemma PageDoneKeeps(run: RunConfig, store: RunStore, owner: Owner, full: bool, env: Env)
    requires Stepping(run, store, owner, env) && owner.control == ReplayingPage([], full)
    ensures StepOK(run, store, owner, Proceed(run, store, owner, env))
  {
    hide StepOK, Save;
    var record := SaveRecord(run, owner, None, None, owner.replayStatus, env);
    if owner.checkpoint.claimSequence == store.head.value.claimSequence {
      HeadIsRunning(run, store, owner);
      NothingEndedYet(run, store.head.value, store.journal);
      ReplayingFacts(run, store, owner, [], full);
      ConfirmedIsSound(run, record, store.journal);
    }
    StoppingIsOK(run, store, owner);
    hide Sound, SoundStore;
    SaveKeeps(run, store, owner, record, env, if full then Reconciling else Recovered(owner), Stopped);
  }

  lemma ReplayRecordKeeps(run: RunConfig, store: RunStore, owner: Owner, page: seq<Record>, full: bool, env: Env)
    requires Stepping(run, store, owner, env) && owner.control == ReplayingPage(page, full) && page != []
    ensures StepOK(run, store, owner, Proceed(run, store, owner, env))
  {
    hide SoundStore;
    var moved := Proceed(run, store, owner, env);
    if moved.owner.control.ReplayingPage? {
      ReplayedKeeps(run, store, owner, page, full, moved.owner);
    }
  }

  lemma ReplayedKeeps(run: RunConfig, store: RunStore, owner: Owner, page: seq<Record>, full: bool, after: Owner)
    requires SoundStore(run, store) && OwnerOK(run, store, owner) && owner.control == ReplayingPage(page, full)
    requires page != []
    requires page[0].sequence == owner.cursor + 1
    requires after == owner.(offers := owner.offers + [page[0].sequence], sequence := page[0].sequence,
                             cursor := page[0].sequence, control := ReplayingPage(page[1..], full))
    ensures StepOK(run, store, owner, Moved(store, after))
  {
    hide SoundStore;
    if owner.checkpoint.claimSequence == store.head.value.claimSequence {
      assert page[1..] == store.journal[owner.cursor + 1..owner.cursor + |page|];
    }
  }

  /** A record whose pending event is the next one of a batch. */
  lemma BatchPendingIsSound(run: RunConfig, record: Checkpoint, journal: seq<Record>, progress: InterruptProgress)
    requires record.identity == run.identity && record.claimSequence >= 1 && record.status == Running
    requires record.payload.eventCursor == record.confirmedSequence == |journal|
    requires record.payload.interruptProgress == Some(progress) && record.payload.pendingTerm.None?
    requires BatchShaped(run, record.payload.pendingInterrupts, progress.events) && AllStamped(run, progress.events)
    requires 0 <= progress.next < |progress.events| && JournaledSoFar(run, journal, progress)
    requires record.confirmedSequence == progress.events[0].sequence + progress.next - 1
    requires record.payload.pendingEvent == Some(progress.events[progress.next])
    requires record.pendingSequence == progress.events[progress.next].sequence
    requires forall i :: 0 <= i < |journal| ==> !journal[i].eventType.WorkflowEnded?
    ensures Sound(run, record, journal)
  {
  }

  /** What an owner working on its interrupt batch knows. */
  lemma InterruptingFacts(run: RunConfig, store: RunStore, owner: Owner)
    requires SoundStore(run, store) && OwnerOK(run, store, owner) && owner.control == Interrupting
    requires owner.checkpoint.claimSequence == store.head.value.claimSequence
    ensures Bare(owner.checkpoint) == Bare(store.head.value) && store.head.value.identity == run.identity
    ensures store.head.value.status == Running && store.head.value.payload.pendingTerm.None?
    ensures owner.cursor == owner.sequence == |store.journal| >= store.head.value.confirmedSequence
    ensures BatchUnderWay(run, owner, store.journal)
    ensures forall i :: 0 <= i < |store.journal| ==> !store.journal[i].eventType.WorkflowEnded?
  {
    NothingEndedYet(run, store.head.value, store.journal);
  }

  lemma InterruptEventKeeps(run: RunConfig, store: RunStore, owner: Owner, event: Event, progress: InterruptProgress,
                            env: Env)
    requires Stepping(run, store, owner, env) && owner.control == Interrupting && owner.progress == Some(progress)
    requires 0 <= progress.next < |progress.events| && event == progress.events[progress.next]
    ensures var record := SaveRecord(run, owner, Some(event), None, owner.replayStatus, env);
            StepOK(run, store, owner, Save(store, owner, record, env, Journaling(event, Batch), Stuck))
  {
    var record := SaveRecord(run, owner, Some(event), None, owner.replayStatus, env);
    if record.claimSequence == store.head.value.claimSequence {
      InterruptingFacts(run, store, owner);
      BatchPendingIsSound(run, record, store.journal, progress);
      BatchPendingOK(run, store.(head := Some(record.(version := record.version + 1))),
                     owner.(checkpoint := record.(version := record.version + 1),
                       control := Journaling(event, Batch)), event);
    }
    StuckIsOK(run, store, owner);
    SaveKeeps(run, store, owner, record, env, Journaling(event, Batch), Stuck);
  }

  lemma BatchPendingOK(run: RunConfig, store: RunStore, owner: Owner, event: Event)
    requires store.head.Some? && Local(owner) && owner.control == Journaling(event, Batch)
    requires owner.checkpoint == store.head.value && store.head.value.status == Running
    requires store.head.value.ownerID != ""
    requires owner.cursor == store.head.value.confirmedSequence == |store.journal|
    requires store.head.value.payload.pendingEvent == Some(event) && store.head.value.payload.pendingTerm.None?
    requires InStep(store, owner) && owner.progress.Some?
    ensures OwnerOK(run, store, owner)
  {
  }

  /** When all batch events are journaled the run becomes interrupted. */
  lemma InterruptedIsSound(run: RunConfig, record: Checkpoint, journal: seq<Record>, events: seq<Event>)
    requires record.identity == run.identity && record.claimSequence >= 1 && record.status == Interrupted
    requires record.ownerID == "" && record.pendingSequence == 0
    requires record.payload.eventCursor == record.confirmedSequence == |journal|
    requires record.payload.pendingEvent.None? && record.payload.pendingTerm.None?
    requires record.payload.interruptProgress.None?
    requires EndsWith(run, journal, record.payload.pendingInterrupts, events)
    requires forall i :: 0 <= i < |journal| ==> !journal[i].eventType.WorkflowEnded?
    ensures Sound(run, record, journal)
  {
  }

  lemma InterruptDoneKeeps(run: RunConfig, store: RunStore, owner: Owner, progress: InterruptProgress, env: Env)
    requires Stepping(run, store, owner, env) && owner.control == Interrupting && owner.progress == Some(progress)
    requires !(0 <= progress.next < |progress.events|)
    ensures var record := ClosingRecord(owner, Interrupted, None, env);
            StepOK(run, store, owner.(progress := None),
              Save(store, owner.(progress := None), record, env, Suspended, Stuck))
  {
    hide BatchShaped, StepOK, WellFormed, GenuineJournal, Chained, Stamped, EndsWithBatch;
    var record, cleared := ClosingRecord(owner, Interrupted, None, env), owner.(progress := None);
    StuckIsOK(run, store, owner);
    if owner.checkpoint.claimSequence == store.head.value.claimSequence {
      InterruptingFacts(run, store, owner);
      BatchIsWhole(run, owner, store.journal);
      InterruptedIsSound(run, record, store.journal, progress.events);
      SuspendedOK(run, store, cleared, record);
    }
    hide Sound, SoundStore, Stands, BatchUnderWay;
    SaveKeeps(run, store, cleared, record, env, Suspended, Stuck);
  }

  lemma SuspendedOK(run: RunConfig, store: RunStore, owner: Owner, record: Checkpoint)
    requires Local(owner) && owner.control == Interrupting && store.head.Some? && owner.cursor == |store.journal|
    requires record.status == Interrupted && record.ownerID == "" && owner.progress.None?
    requires record.payload.pendingInterrupts == owner.interrupts
    ensures OwnerOK(run, store.(head := Some(record.(version := record.version + 1))),
                    owner.(checkpoint := record.(version := record.version + 1), control := Suspended))
  {
  }

  lemma BatchIsWhole(run: RunConfig, owner: Owner, journal: seq<Record>)
    requires BatchUnderWay(run, owner, journal) && owner.cursor == |journal|
    requires owner.progress.value.next == |owner.progress.value.events|
    ensures EndsWith(run, journal, owner.interrupts, owner.progress.value.events)
  {
  }

  lemma StuckIsOK(run: RunConfig, store: RunStore, owner: Owner)
    requires OwnerOK(run, store, owner) && owner.control == Interrupting
    ensures OwnerOK(run, store, owner.(control := Stuck))
    ensures OwnerOK(run, store, owner.(progress := None, control := Stuck))
  {
  }

  lemma InterruptNextKeeps(run: RunConfig, store: RunStore, owner: Owner, env: Env)
    requires Stepping(run, store, owner, env) && owner.control == Interrupting
    ensures StepOK(run, store, owner, Proceed(run, store, owner, env))
  {
    assert Proceed(run, store, owner, env) == InterruptNext(run, store, owner, env);
    hide Proceed, SoundStore, OwnerOK, StepOK, SaveRecord, ClosingRecord, Save;
    if owner.progress.Some? {
      var progress := owner.progress.value;
      if 0 <= progress.next < |progress.events| {
        InterruptEventKeeps(run, store, owner, progress.events[progress.next], progress, env);
      } else {
        InterruptDoneKeeps(run, store, owner, progress, env);
        var cleared := owner.(progress := None);
        RememberingKeeps(run, store, owner, cleared,
                         Save(store, cleared, ClosingRecord(owner, Interrupted, None, env), env, Suspended, Stuck));
      }
    } else {
      NoStepKeeps(run, store, owner);
    }
  }

  /** What an owner remembers of its batch does not matter once it failed. */
  lemma RememberingKeeps(run: RunConfig, store: RunStore, owner: Owner, cleared: Owner, moved: Moved)
    requires StepOK(run, store, cleared, moved) && cleared == owner.(progress := None)
    ensures StepOK(run, store, owner, moved)
    ensures moved.owner.control == Stuck ==>
      StepOK(run, store, owner, moved.(owner := moved.owner.(progress := owner.progress)))
  {
    if moved.owner.control == Stuck {
      ForgottenOrNot(run, moved.store, moved.owner, owner.progress);
    }
    hide Current, Local, SoundStore, Current;
  }

  lemma ForgottenOrNot(run: RunConfig, store: RunStore, owner: Owner, progress: Option<InterruptProgress>)
    requires OwnerOK(run, store, owner) && owner.control == Stuck
    ensures OwnerOK(run, store, owner.(progress := progress))
  {
  }

  lemma NoStepKeeps(run: RunConfig, store: RunStore, owner: Owner)
    requires SoundStore(run, store) && OwnerOK(run, store, owner)
    ensures StepOK(run, store, owner, Moved(store, owner))
  {
  }
}
