/** The invariant of the run protocol and its preservation by every step. */
module RunInvariant {
  import opened Options
  import opened Runlog
  import opened CheckpointStore
  import opened StoreSafety
  import opened RunProtocol

  // ----- the durable side -----

  /** Sequences 1..n without gap, every record genuine. */
  ghost predicate GenuineJournal(run: RunConfig, journal: seq<Record>) {
    forall i :: 0 <= i < |journal| ==> ValidJournalRecord(run, journal[i], i + 1)
  }

  ghost predicate AllStamped(run: RunConfig, events: seq<Event>) {
    forall i :: 0 <= i < |events| ==> Stamped(run, events[i])
  }

  /** The first `progress.next` events of the batch are in the journal, in order. */
  ghost predicate JournaledSoFar(run: RunConfig, journal: seq<Record>, progress: InterruptProgress) {
    && progress.events != [] && 1 <= progress.events[0].sequence
    && progress.events[0].sequence - 1 + progress.next <= |journal|
    && (forall i :: 0 <= i < progress.next && i < |progress.events| ==>
          journal[progress.events[0].sequence - 1 + i] == Entry(run, progress.events[i]))
  }

  /** The journal ends with the whole batch for these waits. */
  ghost predicate EndsWithBatch(run: RunConfig, journal: seq<Record>, waits: seq<PendingInterrupt>) {
    exists events :: EndsWith(run, journal, waits, events)
  }

  ghost predicate EndsWith(run: RunConfig, journal: seq<Record>, waits: seq<PendingInterrupt>, events: seq<Event>) {
    && BatchShaped(run, waits, events)
    && |events| <= |journal|
    && (forall i :: 0 <= i < |events| ==> journal[|journal| - |events| + i] == Entry(run, events[i]))
  }

  ghost predicate SoundPending(run: RunConfig, record: Checkpoint, journal: seq<Record>, event: Event) {
    var confirmed := record.confirmedSequence;
    && record.status == Running
    && event.sequence == confirmed + 1
    && Stamped(run, event)
    && (|journal| == confirmed || (0 <= confirmed < |journal| && journal[confirmed] == Entry(run, event)))
  }

  ghost predicate SoundProgress(run: RunConfig, record: Checkpoint, journal: seq<Record>, progress: InterruptProgress) {
    && AllStamped(run, progress.events)
    && JournaledSoFar(run, journal, progress)
    && |journal| <= record.confirmedSequence + (if record.payload.pendingEvent.Some? then 1 else 0)
  }

  ghost predicate SoundIntent(record: Checkpoint, journal: seq<Record>) {
    var payload := record.payload;
    match payload.pendingTerm
    case Some(outcome) =>
      && payload.pendingEvent.Some? && payload.pendingEvent.value.eventType == WorkflowEnded(outcome)
      && |journal| <= record.confirmedSequence + 1
    case None => payload.pendingEvent.Some? ==> !payload.pendingEvent.value.eventType.WorkflowEnded?
  }

  ghost predicate SoundStatus(run: RunConfig, record: Checkpoint, journal: seq<Record>) {
    match record.status
    case Running => true
    case Interrupted =>
      && record.ownerID == "" && record.payload.pendingEvent.None? && record.payload.pendingTerm.None?
      && record.confirmedSequence == |journal|
      && EndsWithBatch(run, journal, record.payload.pendingInterrupts)
    case Ended(outcome) =>
      && record.ownerID == "" && record.payload.pendingEvent.None? && record.payload.pendingTerm.None?
      && record.confirmedSequence == |journal| > 0
      && journal[|journal| - 1].eventType == WorkflowEnded(outcome)
  }

  /** A terminal event is the journal's last record, and the head knows of it. */
  ghost predicate TerminalLast(record: Checkpoint, journal: seq<Record>) {
    forall i :: 0 <= i < |journal| && journal[i].eventType.WorkflowEnded? ==>
      && i == |journal| - 1
      && (record.status.Ended? || (record.payload.pendingTerm.Some? && i == record.confirmedSequence))
  }

  ghost predicate Sound(run: RunConfig, record: Checkpoint, journal: seq<Record>) {
    var payload := record.payload;
    && record.identity == run.identity && record.claimSequence >= 1
    && payload.eventCursor == record.confirmedSequence
    && 0 <= record.confirmedSequence <= |journal|
    && record.pendingSequence == SequenceOf(payload.pendingEvent)
    && (payload.pendingEvent.Some? ==> SoundPending(run, record, journal, payload.pendingEvent.value))
    && SoundIntent(record, journal)
    && SoundStatus(run, record, journal)
    && (payload.pendingTerm.None? && !record.status.Ended? ==>
          && ProgressConsistent(run, record)
          && (payload.interruptProgress.Some? ==> SoundProgress(run, record, journal, payload.interruptProgress.value)))
    && TerminalLast(record, journal)
  }

  /** A pending terminal outcome is kept or carried out by the next version, and
      the confirmed cursor never goes back. */
  ghost predicate KeepsIntent(earlier: Checkpoint, later: Checkpoint) {
    && earlier.confirmedSequence <= later.confirmedSequence
    && (earlier.payload.pendingTerm.Some? ==>
          || later.payload.pendingTerm == earlier.payload.pendingTerm
          || later.status == Ended(earlier.payload.pendingTerm.value))
  }

  ghost predicate Chained(history: seq<Checkpoint>) {
    forall i :: 0 <= i < |history| - 1 ==> KeepsIntent(history[i], history[i + 1])
  }

  /** Unless a terminal outcome is under way or reached, a resume accepts the version, up
      to what a batch's closing event reports. */
  ghost predicate Resumable(run: RunConfig, record: Checkpoint) {
    record.payload.pendingTerm.None? && !record.status.Ended? ==> ProgressConsistent(run, record)
  }

  ghost predicate SoundStore(run: RunConfig, store: RunStore) {
    && WellFormed(store)
    && (forall i :: 0 <= i < |store.history| ==> Resumable(run, store.history[i]))
    && (store.head.Some? ==> Sound(run, store.head.value, store.journal))
    && GenuineJournal(run, store.journal)
    && Chained(store.history)
  }

  // ----- the owners' side -----

  /** What an owner offered is contiguous from where it began. */
  ghost predicate Local(owner: Owner) {
    && 0 <= owner.start
    && (forall i :: 0 <= i < |owner.offers| ==> owner.offers[i] == owner.start + i + 1)
    && owner.cursor <= owner.start + |owner.offers|
    && (owner.control != Stopped && owner.control != Releasing ==>
          && owner.cursor == owner.start + |owner.offers|
          && owner.sequence == owner.cursor + (if owner.control.Delivering? then 1 else 0))
    && (owner.control.Delivering? ==> owner.control.event.sequence == owner.sequence)
  }

  function Bare(record: Checkpoint): Checkpoint {
    record.(leaseExpiresAt := 0, leaseDuration := 0)
  }

  ghost predicate BatchUnderWay(run: RunConfig, owner: Owner, journal: seq<Record>) {
    && owner.progress.Some?
    && var progress := owner.progress.value;
       && BatchShaped(run, owner.interrupts, progress.events) && AllStamped(run, progress.events)
       && 0 <= progress.next <= |progress.events|
       && progress.events[0].sequence + progress.next - 1 == owner.cursor
       && JournaledSoFar(run, journal, progress)
  }

  /** An owner at work: nothing of an interrupt or an ending is under way. */
  ghost predicate AtWork(store: RunStore, owner: Owner)
    requires store.head.Some?
  {
    var payload := store.head.value.payload;
    && owner.progress.None? && owner.interrupts == []
    && payload.pendingTerm.None? && payload.interruptProgress.None?
    && (payload.pendingEvent.Some? ==> |store.journal| > store.head.value.confirmedSequence)
  }

  /** The owner's copies of batch and waits are the durable ones. */
  ghost predicate InStep(store: RunStore, owner: Owner)
    requires store.head.Some?
  {
    var payload := store.head.value.payload;
    owner.progress == payload.interruptProgress && owner.interrupts == payload.pendingInterrupts
  }

  /** The event under way is the durable pending one, committed for this purpose. */
  ghost predicate UnderWay(run: RunConfig, store: RunStore, owner: Owner, event: Event, purpose: Purpose)
    requires store.head.Some?
  {
    var payload := store.head.value.payload;
    && payload.pendingEvent == Some(event)
    && (match purpose
        case Observe => false
        case Load => false
        case Advance => payload.pendingTerm.None? && payload.interruptProgress.None? && owner.progress.None?
          && owner.interrupts == []
        case Begin => payload.pendingTerm.None? && payload.interruptProgress.None? && owner.progress.None?
          && owner.interrupts == []
        case Conclude(outcome) => payload.pendingTerm == Some(outcome)
        case Batch => payload.pendingTerm.None? && payload.interruptProgress.Some?
        case Replay(term) => payload.pendingTerm == term)
  }

  ghost predicate Current(run: RunConfig, store: RunStore, owner: Owner)
    requires store.head.Some?
  {
    var head := store.head.value;
    && (if owner.control == Suspended then LeftInterrupted(store, owner)
        else head.status == Running && (head.ownerID != "" || Disowned(head, owner.control)))
    && Bare(owner.checkpoint) == Bare(head)
    && Stands(run, store, owner)
  }

  /** What an owner knows at the point it has reached. */
  ghost predicate Stands(run: RunConfig, store: RunStore, owner: Owner)
    requires store.head.Some?
  {
    var head, length := store.head.value, |store.journal|;
    match owner.control
    case Starting => owner.cursor == length && AtWork(store, owner)
    case Loading => owner.cursor == length && AtWork(store, owner)
    case Resuming => owner.cursor == length && AtWork(store, owner)
    case Ready => owner.cursor == length && AtWork(store, owner)
    case Journaling(event, purpose) =>
      && owner.cursor == head.confirmedSequence
      && UnderWay(run, store, owner, event, purpose)
      && InStep(store, owner)
      && (!purpose.Replay? ==> length == owner.cursor)
    case Delivering(event, purpose) =>
      && Stamped(run, event)
      && 1 <= owner.sequence <= length
      && store.journal[owner.sequence - 1] == Entry(run, event)
      && (if purpose == Observe
            || purpose == Load then length == owner.sequence && AtWork(store, owner) && PlainType(event.eventType)
          else && owner.cursor == head.confirmedSequence && UnderWay(run, store, owner, event, purpose)
               && InStep(store, owner) && (!purpose.Replay? ==> length == owner.sequence))
    case Confirming(event, purpose) =>
      && 1 <= owner.cursor == head.confirmedSequence + 1 <= length
      && store.journal[owner.cursor - 1] == Entry(run, event)
      && UnderWay(run, store, owner, event, purpose)
      && owner.progress == Advanced(head.payload.interruptProgress, event, purpose)
      && owner.interrupts == head.payload.pendingInterrupts
      && (!purpose.Replay? ==> length == owner.cursor)
    case Reconciling =>
      && owner.cursor == head.confirmedSequence
      && head.payload.pendingEvent.None? && head.payload.pendingTerm.None? && InStep(store, owner)
    case ReplayingPage(page, full) =>
      && 0 <= head.confirmedSequence <= owner.cursor
      && owner.cursor + |page| <= length && (full || owner.cursor + |page| == length)
      && page == store.journal[owner.cursor..owner.cursor + |page|]
      && head.payload.pendingEvent.None? && head.payload.pendingTerm.None? && head.payload.interruptProgress.None?
      && InStep(store, owner)
    case Interrupting =>
      && owner.cursor == length && BatchUnderWay(run, owner, store.journal)
      && head.payload.pendingTerm.None?
    case Stuck => owner.cursor == length && head.payload.pendingTerm.None?
    case Suspended => true
    case Releasing => true
    case Stopped => true
  }

  /** The run was left interrupted; only a cancellation may still come. */
  ghost predicate LeftInterrupted(store: RunStore, owner: Owner)
    requires store.head.Some?
  {
    var head := store.head.value;
    && head.status == Interrupted && head.ownerID == ""
    && owner.progress.None? && owner.interrupts == head.payload.pendingInterrupts
    && owner.cursor == |store.journal|
  }

  /** An ending was announced after the run had been given up: nobody owns it any more. */
  ghost predicate Disowned(head: Checkpoint, control: Control) {
    && head.ownerID == "" && head.payload.pendingTerm.Some?
    && (control.Releasing? || (control.Journaling? && control.purpose.Conclude?))
  }

  /** Only the owner of the current claim has to agree with the durable state. */
  ghost predicate OwnerOK(run: RunConfig, store: RunStore, owner: Owner) {
    && Local(owner)
    && store.head.Some? && owner.checkpoint.claimSequence <= store.head.value.claimSequence
    && (owner.checkpoint.claimSequence == store.head.value.claimSequence && owner.control != Stopped ==>
          Current(run, store, owner))
  }

  // ----- events and journal entries -----

  /** Stamping is a fixpoint: an already stamped event is not changed by being
      stamped again for the same sequence, at whatever time. */
  lemma StampIsFixpoint(run: RunConfig, event: Event, sequence: int, now: Time, later: Time)
    requires ValidRun(run)
    ensures Stamped(run, event) && event.sequence == sequence ==> Stamp(run, event, sequence, now) == event
    ensures Fresh(event) && now > 0 ==> Stamped(run, Stamp(run, event, sequence, now))
    ensures now > 0 ==>
      Stamp(run, Stamp(run, event, sequence, now), sequence, later) == Stamp(run, event, sequence, now)
  {
  }

  /** A stamped event survives the projection to the log and back, and its record
      passes the recovery check. */
  lemma EntryIsGenuine(run: RunConfig, event: Event)
    requires ValidRun(run) && Stamped(run, event) && event.sequence > 0
    ensures EventFromRecord(Entry(run, event)) == event
    ensures ValidRecord(Entry(run, event)) && ValidJournalRecord(run, Entry(run, event), event.sequence)
  {
  }

  lemma AppendAt(run: RunConfig, journal: seq<Record>, entry: Record)
    requires GenuineJournal(run, journal) && ValidJournalRecord(run, entry, entry.sequence)
    requires 1 <= entry.sequence <= |journal| + 1
    requires Appended(journal, entry).error.None?
    ensures GenuineJournal(run, Appended(journal, entry).records)
    ensures entry.sequence == |journal| + 1 ==> Appended(journal, entry).records == journal + [entry]
    ensures entry.sequence <= |journal| ==>
      Appended(journal, entry).records == journal && journal[entry.sequence - 1] == entry
  {
    var found := Lookup(journal, KeyOf(entry));
    if entry.sequence <= |journal| {
      assert journal[entry.sequence - 1] in journal && KeyOf(journal[entry.sequence - 1]) == KeyOf(entry);
    }
    if found.Some? {
      var i :| 0 <= i < |journal| && journal[i] == found.value;
      assert i + 1 == entry.sequence;
    }
  }
}
