/** Runs of one owner on its own: they keep the protocol's invariant, and as long
    as no call fails and the lease lasts, nothing the owner tries is refused. */
module RunProgress {
  import opened Options
  import opened Runlog
  import opened CheckpointStore
  import opened StoreSafety
  import opened RunProtocol
  import opened RunInvariant
  import opened RunTheorems
  import opened RunLaws

  // What the surroundings do at each call into them, the first call first.
  type World = nat -> Env

  ghost function Go(run: RunConfig, moved: Moved, action: Action, env: Env): Moved {
    Step(run, moved.store, moved.owner, action, env)
  }

  /** Carrying on with what is under way, from call `from` up to call `until`. */
  ghost function Carried(run: RunConfig, world: World, moved: Moved, from: nat, until: nat): Moved
    decreases until
  {
    if until <= from then moved else Go(run, Carried(run, world, moved, from, until - 1), Continue, world(until - 1))
  }

  lemma {:induction false} CarriedOn(run: RunConfig, world: World, moved: Moved, from: nat, between: nat, until: nat)
    requires from <= between <= until
    ensures Carried(run, world, moved, from, until)
      == Carried(run, world, Carried(run, world, moved, from, between), between, until)
    decreases until
  {
    hide Go;
    if between < until {
      CarriedOn(run, world, moved, from, between, until - 1);
    }
  }

  /** One owner's view of the store agrees with it. */
  ghost predicate Consistent(run: RunConfig, moved: Moved) {
    SoundStore(run, moved.store) && OwnerOK(run, moved.store, moved.owner)
  }

  lemma GoKeeps(run: RunConfig, moved: Moved, env: Env)
    requires ValidRun(run) && Consistent(run, moved) && env.now > 0
    ensures Consistent(run, Go(run, moved, Continue, env))
  {
    if moved.owner.control != Stopped {
      hide Step;
      StepKeeps(run, moved.store, moved.owner, Continue, env);
    } else {
      assert Go(run, moved, Continue, env) == moved;
    }
  }

  lemma {:induction false} CarriedKeeps(run: RunConfig, world: World, moved: Moved, from: nat, until: nat)
    requires ValidRun(run) && Consistent(run, moved) && forall k :: world(k).now > 0
    ensures Consistent(run, Carried(run, world, moved, from, until))
    decreases until
  {
    hide Go, Consistent;
    if from < until {
      CarriedKeeps(run, world, moved, from, until - 1);
      GoKeeps(run, Carried(run, world, moved, from, until - 1), world(until - 1));
    }
  }

  // ----- nothing fails -----

  ghost predicate Quiet(env: Env, lease: Time) {
    0 < env.now < lease && !env.fails && 0 < env.work.size <= MAX_PAYLOAD_BYTES
  }

  /** The owner holds the current claim at least up to `lease`. */
  ghost predicate Holds(moved: Moved, lease: Time) {
    && moved.store.head.Some? && moved.store.head.value.ownerID != ""
    && moved.store.head.value.claimSequence == moved.owner.checkpoint.claimSequence
    && moved.store.head.value.leaseExpiresAt >= lease
    && moved.owner.checkpoint.createdAt != 0
  }

  /** The owner is done: it left the run ended or interrupted. */
  ghost predicate Finished(moved: Moved) {
    && (moved.owner.control == Stopped || moved.owner.control == Suspended) && moved.store.head.Some?
    && moved.store.head.value.status == moved.owner.checkpoint.status != Running
  }

  predicate GoingOn(control: Control) {
    control != Stopped && control != Releasing && control != Stuck && control != Suspended
  }

  /** Nothing has failed: the owner is done, or still holds its claim and goes on. */
  ghost predicate Unhindered(moved: Moved, lease: Time) {
    || Finished(moved)
    || (Holds(moved, lease) && GoingOn(moved.owner.control))
  }

  lemma SaveSucceeds(run: RunConfig, store: RunStore, owner: Owner, record: Checkpoint, env: Env, next: Control,
                     fallback: Control, lease: Time)
    requires ValidRun(run) && Quiet(env, lease) && Holds(Moved(store, owner), lease)
    requires Bare(owner.checkpoint) == Bare(store.head.value)
    requires store.head.value.status == Running && store.head.value.identity == run.identity
    requires store.head.value.version > 0
    requires record == owner.checkpoint.(
               payload := record.payload, status := record.status, ownerID := record.ownerID,
               leaseExpiresAt := record.leaseExpiresAt,
               leaseDuration := record.leaseDuration, confirmedSequence := record.confirmedSequence,
               pendingSequence := record.pendingSequence,
               replayStatus := record.replayStatus, updatedAt := env.now)
    requires record.ownerID == (if record.status == Running then owner.checkpoint.ownerID else "")
    requires record.leaseDuration >= 0
    requires record.confirmedSequence >= 0 && record.pendingSequence >= 0 && record.payload.work == env.work
    ensures var moved := Save(store, owner, record, env, next, fallback);
            && moved.owner == owner.(checkpoint := record.(version := record.version + 1), control := next)
            && moved.store.head.Some? && moved.store.head.value.status == record.status
            && moved.store.head.value.claimSequence == record.claimSequence
            && moved.store.head.value.ownerID == record.ownerID
            && (record.status == Running && record.ownerID != "" ==> moved.store.head.value.leaseExpiresAt >= lease)
  {
  }

  /** What a consistent owner that holds its claim can count on. */
  lemma HoldingFacts(run: RunConfig, moved: Moved, lease: Time)
    requires Consistent(run, moved) && Holds(moved, lease)
    requires GoingOn(moved.owner.control)
    ensures Current(run, moved.store, moved.owner) && Local(moved.owner) && moved.owner.cursor >= 0
    ensures Bare(moved.owner.checkpoint) == Bare(moved.store.head.value)
    ensures var head := moved.store.head.value;
            && head.status == Running && head.ownerID != "" && head.identity == run.identity
            && head.version > 0 && head.claimSequence >= 1
  {
    var store := moved.store;
    assert SameButLaterLease(store.history[|store.history| - 1], store.head.value);
  }

  /** Saving under a live claim works. */
  lemma QuietSave(run: RunConfig, moved: Moved, pending: Option<Event>, replayStatus: ReplayStatus, env: Env,
                  next: Control, fallback: Control, lease: Time)
    requires ValidRun(run) && Quiet(env, lease) && Consistent(run, moved) && Holds(moved, lease)
    requires GoingOn(moved.owner.control)
    requires pending.Some? ==> pending.value.sequence >= 0
    ensures var after :=
      Save(moved.store, moved.owner, SaveRecord(run, moved.owner, pending, None, replayStatus, env), env,
        next, fallback);
            Holds(after, lease) && after.owner.control == next
              && after.owner.checkpoint.version == moved.owner.checkpoint.version + 1
  {
    HoldingFacts(run, moved, lease);
    SaveSucceeds(run, moved.store, moved.owner, SaveRecord(run, moved.owner, pending, None, replayStatus, env), env,
                 next, fallback, lease);
  }

  lemma QuietClose(run: RunConfig, moved: Moved, status: Status, progress: Option<InterruptProgress>, env: Env,
                   next: Control, fallback: Control, lease: Time)
    requires ValidRun(run) && Quiet(env, lease) && Consistent(run, moved) && Holds(moved, lease) && status != Running
    requires next == Stopped || next == Suspended
    requires GoingOn(moved.owner.control)
    ensures var after :=
      Save(moved.store, moved.owner, ClosingRecord(moved.owner, status, progress, env), env, next, fallback);
            Finished(after) && after.owner.control == next
  {
    HoldingFacts(run, moved, lease);
    SaveSucceeds(run, moved.store, moved.owner, ClosingRecord(moved.owner, status, progress, env), env, next, fallback,
                 lease);
  }

  /** The append of the event under way is accepted, whether it is new or already there. */
  lemma QuietJournal(run: RunConfig, moved: Moved, env: Env, lease: Time)
    requires ValidRun(run) && Quiet(env, lease) && Consistent(run, moved) && Holds(moved, lease)
    requires moved.owner.control.Journaling?
    ensures Unhindered(Go(run, moved, Continue, env), lease)
  {
    hide Stamp, Entry, SoundStore, OwnerOK, Current, Appended, Local;
    var event, purpose := moved.owner.control.event, moved.owner.control.purpose;
    assert Go(run, moved, Continue, env) == Emit(run, moved.store, moved.owner, event, purpose, env);
    hide Go, Proceed, Step;
    HoldingFacts(run, moved, lease);
    AppendAccepted(run, moved.store, moved.owner, env.now);
    hide Consistent;
  }

  /** Only durable events are confirmed. */
  lemma ConfirmedFor(run: RunConfig, moved: Moved, lease: Time)
    requires Consistent(run, moved) && Holds(moved, lease) && moved.owner.control.Confirming?
    ensures moved.owner.control.purpose != Observe && moved.owner.control.purpose != Load
  {
  }

  lemma QuietConfirm(run: RunConfig, moved: Moved, env: Env, lease: Time)
    requires ValidRun(run) && Quiet(env, lease) && Consistent(run, moved) && Holds(moved, lease)
    requires moved.owner.control.Confirming?
    ensures Unhindered(Go(run, moved, Continue, env), lease)
  {
    hide SaveRecord, ClosingRecord, Save, Consistent;
    ConfirmedFor(run, moved, lease);
    var owner := moved.owner;
    match owner.control.purpose
    case Observe =>
    case Load =>
    case Advance => QuietSave(run, moved, None, ReplayStatusFor(owner.control.event.eventType), env, Ready,
      Ready, lease);
    case Begin => QuietSave(run, moved, None, ReplayStatusFor(owner.control.event.eventType), env, Ready,
      Stopped, lease);
    case Batch => QuietSave(run, moved, None, owner.replayStatus, env, Interrupting, Stuck, lease);
    case Conclude(outcome) => QuietClose(run, moved, Ended(outcome), owner.progress, env, Stopped, Stopped, lease);
    case Replay(term) =>
      if term.Some? {
        QuietClose(run, moved, Ended(term.value), owner.progress, env, Stopped, Stopped, lease);
      } else {
        QuietSave(run, moved, None, owner.replayStatus, env, Reconciling, Stopped, lease);
      }
  }

  lemma QuietReplay(run: RunConfig, moved: Moved, env: Env, lease: Time)
    requires ValidRun(run) && Quiet(env, lease) && Consistent(run, moved) && Holds(moved, lease)
    requires moved.owner.control.ReplayingPage?
    ensures Unhindered(Go(run, moved, Continue, env), lease)
  {
    hide WellFormed;
    HoldingFacts(run, moved, lease);
    var owner := moved.owner;
    if owner.control.page == [] {
      hide SaveRecord, Stored, Current, SoundStore;
      QuietSave(run, moved, None, owner.replayStatus, env,
                if owner.control.full then Reconciling else Recovered(owner), Stopped, lease);
    } else {
      var journal := moved.store.journal;
      assert owner.control.page[0] == journal[owner.cursor];
      assert ValidJournalRecord(run, journal[owner.cursor], owner.cursor + 1);
    }
  }

  lemma BatchAtHand(run: RunConfig, moved: Moved, lease: Time)
    requires Consistent(run, moved) && Holds(moved, lease) && moved.owner.control == Interrupting
    ensures moved.owner.progress.Some? && 0 <= moved.owner.progress.value.next <= |moved.owner.progress.value.events|
    ensures forall event :: event in moved.owner.progress.value.events ==> event.sequence >= 0
  {
    assert BatchUnderWay(run, moved.owner, moved.store.journal);
  }

  /** The owner forgets its batch before it gives the run up. */
  lemma ClearedHolds(run: RunConfig, moved: Moved, env: Env, lease: Time)
    requires ValidRun(run) && Quiet(env, lease) && Consistent(run, moved) && Holds(moved, lease)
    requires moved.owner.control == Interrupting
    ensures var cleared := moved.(owner := moved.owner.(progress := None));
            var after := Save(cleared.store, cleared.owner, ClosingRecord(moved.owner, Interrupted, None, env), env,
              Suspended, Stuck);
            Finished(after) && after.owner.control == Suspended
  {
    HoldingFacts(run, moved, lease);
    SaveSucceeds(run, moved.store, moved.owner.(progress := None), ClosingRecord(moved.owner, Interrupted, None, env),
                 env, Suspended, Stuck, lease);
  }

  lemma QuietInterrupt(run: RunConfig, moved: Moved, env: Env, lease: Time)
    requires ValidRun(run) && Quiet(env, lease) && Consistent(run, moved) && Holds(moved, lease)
    requires moved.owner.control == Interrupting
    ensures Unhindered(Go(run, moved, Continue, env), lease)
  {
    hide SaveRecord, ClosingRecord, Save, Consistent;
    BatchAtHand(run, moved, lease);
    var owner, batch := moved.owner, moved.owner.progress.value;
    if batch.next < |batch.events| {
      var event := batch.events[batch.next];
      QuietSave(run, moved, Some(event), owner.replayStatus, env, Journaling(event, Batch), Stuck, lease);
    } else {
      var cleared := moved.(owner := owner.(progress := None));
      ClearedHolds(run, moved, env, lease);
    }
  }

  lemma QuietAttempt(run: RunConfig, moved: Moved, event: Event, env: Env, lease: Time)
    requires ValidRun(run) && Quiet(env, lease) && Consistent(run, moved) && Holds(moved, lease)
    requires moved.owner.control == Starting || moved.owner.control == Resuming
    ensures Unhindered(BeginAttempt(run, moved.store, moved.owner, event, env), lease)
  {
    hide SaveRecord, Save, Consistent, Stamp;
    HoldingFacts(run, moved, lease);
    var pending := Stamp(run, event, moved.owner.sequence + 1, env.now);
    StampedAt(run, event, moved.owner.sequence + 1, env.now);
    QuietSave(run, moved, Some(pending), ReplayStatusFor(event.eventType), env, Journaling(pending, Begin), Stopped,
              lease);
  }

  lemma StampedAt(run: RunConfig, event: Event, sequence: int, now: Time)
    ensures Stamp(run, event, sequence, now).sequence == sequence
  {
  }

  lemma QuietLoad(run: RunConfig, moved: Moved, env: Env, lease: Time)
    requires ValidRun(run) && Quiet(env, lease) && Consistent(run, moved) && Holds(moved, lease)
    requires moved.owner.control == Loading
    ensures Unhindered(Emit(run, moved.store, moved.owner, LOADED_EVENT, Load, env), lease)
  {
    hide Consistent, Stamp, Current, Appended, Entry;
    HoldingFacts(run, moved, lease);
    LoadAccepted(run, moved, env.now);
  }

  lemma LoadAccepted(run: RunConfig, moved: Moved, now: Time)
    requires ValidRun(run) && Consistent(run, moved) && moved.owner.control == Loading && now > 0
    requires moved.store.head.Some? && moved.owner.checkpoint.claimSequence == moved.store.head.value.claimSequence
    ensures Appended(moved.store.journal,
      Entry(run, Stamp(run, LOADED_EVENT, moved.owner.sequence + 1, now))).error.None?
  {
    StampIsFixpoint(run, LOADED_EVENT, moved.owner.sequence + 1, now, now);
    var event := Stamp(run, LOADED_EVENT, moved.owner.sequence + 1, now);
    EntryIsGenuine(run, event);
  }

  lemma NotFinished(moved: Moved, lease: Time)
    requires Unhindered(moved, lease) && !Finished(moved)
    ensures Holds(moved, lease) && GoingOn(moved.owner.control)
  {
  }

  /** A delivery that works keeps the claim. */
  lemma StillHolds(run: RunConfig, moved: Moved, after: Owner, env: Env, lease: Time)
    requires Quiet(env, lease) && Holds(moved, lease) && moved.owner.control.Delivering?
    requires after == Deliver(moved.owner, moved.owner.control.event, moved.owner.control.purpose, env)
    ensures Unhindered(Moved(moved.store, after), lease)
  {
  }

  lemma QuietList(run: RunConfig, moved: Moved, env: Env, lease: Time)
    requires ValidRun(run) && Quiet(env, lease) && Consistent(run, moved) && Holds(moved, lease)
    requires moved.owner.control == Reconciling
    ensures Unhindered(Moved(moved.store, ListPage(run, moved.store, moved.owner, env)), lease)
  {
    HoldingFacts(run, moved, lease);
    hide Consistent, Current, NextPage;
  }

  /** A step that meets no failure goes through: in particular every append is
      accepted, whether or not an earlier owner had already made it. */
  lemma QuietStep(run: RunConfig, moved: Moved, env: Env, lease: Time)
    requires ValidRun(run) && Quiet(env, lease) && Consistent(run, moved) && Unhindered(moved, lease)
    ensures Unhindered(Go(run, moved, Continue, env), lease)
  {
    hide SoundStore, Unhindered, Holds;
    if Finished(moved) {
      hide Consistent;
      assert Go(run, moved, Continue, env) == moved;
    } else {
      NotFinished(moved, lease);
      hide Consistent, Finished, Emit, Confirm, ReplayPage, InterruptNext, BeginAttempt, ListPage, Quiet;
      match moved.owner.control
      case Journaling(_, _) => QuietJournal(run, moved, env, lease);
      case Delivering(event, purpose) => StillHolds(run, moved, Deliver(moved.owner, event, purpose, env), env, lease);
      case Confirming(_, _) => QuietConfirm(run, moved, env, lease);
      case Reconciling => QuietList(run, moved, env, lease);
      case ReplayingPage(_, _) => QuietReplay(run, moved, env, lease);
      case Interrupting => QuietInterrupt(run, moved, env, lease);
      case Starting => QuietAttempt(run, moved, AttemptEvent(run, false), env, lease);
      case Loading => QuietLoad(run, moved, env, lease);
      case Resuming => QuietAttempt(run, moved, AttemptEvent(run, true), env, lease);
      case Ready =>
        assert Go(run, moved, Continue, env) == moved;
    }
  }

  /** As long as nothing fails and the lease lasts, an owner carrying on, and so
      every recovery, is never refused anything. */
  lemma {:induction false} QuietRun(run: RunConfig, world: World, moved: Moved, from: nat, until: nat, lease: Time)
    requires ValidRun(run) && Consistent(run, moved) && Unhindered(moved, lease) && forall k :: Quiet(world(k), lease)
    ensures Consistent(run, Carried(run, world, moved, from, until))
    ensures Unhindered(Carried(run, world, moved, from, until), lease)
    decreases until
  {
    hide Go, Consistent, Unhindered;
    if from < until {
      var before := Carried(run, world, moved, from, until - 1);
      QuietRun(run, world, moved, from, until - 1, lease);
      GoKeeps(run, before, world(until - 1));
      QuietStep(run, before, world(until - 1), lease);
    }
  }

  /** An owner that is restored or at work knows the whole journal. */
  lemma KnowsTheJournal(run: RunConfig, moved: Moved, lease: Time)
    requires Consistent(run, moved) && Holds(moved, lease)
    requires moved.owner.control == Starting || moved.owner.control == Loading || moved.owner.control == Resuming
          || moved.owner.control == Ready
    ensures moved.owner.cursor == moved.owner.sequence == |moved.store.journal|
  {
    HoldingFacts(run, moved, lease);
  }

  /** A granted claim holds until its lease ends. */
  lemma ClaimHolds(run: RunConfig, store: RunStore, candidate: Checkpoint, version: int, restoring: Env, env: Env)
    requires Claimed(store, candidate, version, env.now).error.None? && candidate.leaseDuration > 0
    ensures var after := Claimed(store, candidate, version, env.now).store;
            Holds(Moved(after, Restored(run, candidate.(version := version + 1), restoring)), env.now
              + candidate.leaseDuration)
  {
  }
}
