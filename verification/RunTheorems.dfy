/** What holds of a run over every interleaving of its owners, their failures,
    lost leases, crashes and take-overs. */
module RunTheorems {
  import opened Options
  import opened Runlog
  import opened CheckpointStore
  import opened StoreSafety
  import opened InterruptResolution
  import opened RunProtocol
  import opened RunInvariant
  import opened RunSafety

  ghost predicate OfferedUpTo(offered: set<int>, sequence: int) {
    forall s :: 1 <= s <= sequence ==> s in offered
  }

  ghost predicate Offers(offered: set<int>, owner: Owner) {
    && OfferedUpTo(offered, owner.start)
    && (forall i :: 0 <= i < |owner.offers| ==> owner.offers[i] in offered)
  }

  ghost predicate Invariant(run: RunConfig, system: System) {
    && SoundStore(run, system.store)
    && (system.store.head.None? ==> system.owners == [])
    && (forall i :: 0 <= i < |system.owners| ==> OwnerOK(run, system.store, system.owners[i]))
    && (forall i, j :: 0 <= i < j < |system.owners| ==>
          system.owners[i].checkpoint.claimSequence < system.owners[j].checkpoint.claimSequence)
    && (forall i :: 0 <= i < |system.owners| ==> Offers(system.offered, system.owners[i]))
    && (system.store.head.Some? ==> OfferedUpTo(system.offered, system.store.head.value.confirmedSequence))
  }

  // ----- a step of one owner -----

  lemma ProceedKeeps(run: RunConfig, store: RunStore, owner: Owner, env: Env)
    requires Stepping(run, store, owner, env)
    ensures StepOK(run, store, owner, Proceed(run, store, owner, env))
  {
    hide SoundStore;
    match owner.control
    case Journaling(_, _) => JournalKeeps(run, store, owner, env);
    case Delivering(_, _) => DeliverKeeps(run, store, owner, env);
    case Confirming(_, _) => ConfirmKeeps(run, store, owner, env);
    case Reconciling => ListKeeps(run, store, owner, env);
    case ReplayingPage(_, _) => ReplayPageKeeps(run, store, owner, env);
    case Interrupting => InterruptNextKeeps(run, store, owner, env);
    case Releasing => ReleaseKeeps(run, store, owner, env);
    case Starting => AttemptKeeps(run, store, owner, AttemptEvent(run, false), env);
    case Loading => ObservedKeeps(run, store, owner, LOADED_EVENT, Load, env);
    case Resuming => AttemptKeeps(run, store, owner, AttemptEvent(run, true), env);
    case Suspended => Idle(run, store, owner);
    case Ready => Idle(run, store, owner);
    case Stuck => Idle(run, store, owner);
    case Stopped => Idle(run, store, owner);
  }

  lemma Idle(run: RunConfig, store: RunStore, owner: Owner)
    requires SoundStore(run, store) && OwnerOK(run, store, owner)
    ensures StepOK(run, store, owner, Moved(store, owner))
    ensures StepOK(run, store, owner, Moved(store, owner.(control := Stopped)))
  {
  }

  lemma AdvanceIsSave(run: RunConfig, store: RunStore, owner: Owner, event: Event, env: Env) returns (pending: Event)
    requires ValidRun(run) && owner.control == Ready && Fresh(event) && RunningType(event.eventType) && env.now > 0
    ensures Stamped(run, pending) && pending.sequence == owner.sequence + 1 && pending.eventType == event.eventType
    ensures Step(run, store, owner, BeginAdvance(event), env)
         == Save(store, owner, SaveRecord(run, owner, Some(pending), None, ReplayStatusFor(event.eventType), env), env,
                 Journaling(pending, Advance), Ready)
  {
    pending := FreshStamp(run, event, owner.sequence + 1, env.now);
  }

  lemma ConcludeIsSave(run: RunConfig, store: RunStore, owner: Owner, outcome: Outcome, event: Event,
                       env: Env) returns (pending: Event)
    requires ValidRun(run) && MayConclude(owner.control) && env.now > 0
    requires Fresh(event) && event.eventType == WorkflowEnded(outcome)
    ensures Stamped(run, pending) && pending.sequence == owner.sequence + 1
    ensures pending.eventType == WorkflowEnded(outcome)
    ensures Step(run, store, owner, BeginConclude(outcome, event), env)
         == Save(store, owner, SaveRecord(run, owner, Some(pending), Some(outcome), owner.replayStatus, env), env,
                 Journaling(pending, Conclude(outcome)), Stopped)
  {
    pending := FreshStamp(run, event, owner.sequence + 1, env.now);
  }

  lemma BeginKeeps(run: RunConfig, store: RunStore, owner: Owner, action: Action, env: Env)
    requires Stepping(run, store, owner, env)
    requires action.BeginAdvance? || action.BeginConclude?
    ensures StepOK(run, store, owner, Step(run, store, owner, action, env))
  {
    hide SoundStore, Stamp, Proceed, Emit, Sound, ReplayStatusFor;
    if owner.control == Ready && action.BeginAdvance? && Fresh(action.event) && RunningType(action.event.eventType) {
      var pending := AdvanceIsSave(run, store, owner, action.event, env);
      AdvanceKeeps(run, store, owner, pending, ReplayStatusFor(action.event.eventType), Advance, Ready, env);
    } else if MayConclude(owner.control) && action.BeginConclude?
              && Fresh(action.event) && action.event.eventType == WorkflowEnded(action.outcome) {
      var pending := ConcludeIsSave(run, store, owner, action.outcome, action.event, env);
      ConcludeKeeps(run, store, owner, action.outcome, pending, env);
    } else {
      Idle(run, store, owner);
    }
  }

  lemma StepKeeps(run: RunConfig, store: RunStore, owner: Owner, action: Action, env: Env)
    requires Stepping(run, store, owner, env)
    ensures StepOK(run, store, owner, Step(run, store, owner, action, env))
  {
    hide SoundStore;
    Idle(run, store, owner);
    match action
    case BeginAdvance(_) => BeginKeeps(run, store, owner, action, env);
    case BeginConclude(_, _) => BeginKeeps(run, store, owner, action, env);
    case EmitObserved(event) =>
      if owner.control == Ready && Fresh(event) && RunningType(event.eventType) {
        ObservedKeeps(run, store, owner, event, Observe, env);
      }
    case BeginInterrupts(waits, first) =>
      if owner.control == Ready && waits != [] {
        BeginInterruptsKeeps(run, store, owner, waits, first, env);
      }
    case Continue => ProceedKeeps(run, store, owner, env);
    case Renew => RenewKeeps(run, store, owner, env);
    case Crash =>
  }

  // ----- a step of the system -----

  lemma ActKeeps(run: RunConfig, system: System, index: nat, action: Action, env: Env)
    requires ValidRun(run) && env.now > 0 && Invariant(run, system)
    ensures Invariant(run, Next(run, system, Move(Act(index, action), env)))
  {
    if index < |system.owners| && system.owners[index].control != Stopped {
      StepKeeps(run, system.store, system.owners[index], action, env);
      MovedKeeps(run, system, index, Step(run, system.store, system.owners[index], action, env));
    }
  }

  /** One owner's move keeps the invariant of the whole system. */
  lemma MovedKeeps(run: RunConfig, system: System, index: nat, moved: Moved)
    requires Invariant(run, system) && index < |system.owners|
    requires StepOK(run, system.store, system.owners[index], moved)
    ensures Invariant(run, AfterMove(system, index, moved))
  {
    hide SoundStore;
    var owner, after := system.owners[index], AfterMove(system, index, moved);
    forall i | 0 <= i < |after.owners|
      ensures OwnerOK(run, after.store, after.owners[i]) && Offers(after.offered, after.owners[i])
    {
      if i != index {
        StaleStaysOK(run, system.store, moved.store, system.owners[i], owner);
      } else {
        OffersKept(system.offered, owner, moved.owner, after.offered);
      }
    }
    CursorOffered(moved.owner, after.offered);
  }

  /** Other owners are either untouched by the store's change or already superseded. */
  lemma StaleStaysOK(run: RunConfig, before: RunStore, after: RunStore, other: Owner, owner: Owner)
    requires OwnerOK(run, before, other) && OwnerOK(run, before, owner)
    requires other.checkpoint.claimSequence != owner.checkpoint.claimSequence
    requires after.head.Some? && after.head.value.claimSequence == before.head.value.claimSequence
    requires after == before || owner.checkpoint.claimSequence == before.head.value.claimSequence
    ensures OwnerOK(run, after, other)
  {
  }

  lemma OffersKept(offered: set<int>, before: Owner, after: Owner, later: set<int>)
    requires Offers(offered, before) && before.offers <= after.offers && after.start == before.start
    requires later == offered + (set i | |before.offers| <= i < |after.offers| :: after.offers[i])
    ensures Offers(later, after)
  {
  }

  lemma CursorOffered(owner: Owner, offered: set<int>)
    requires Local(owner) && Offers(offered, owner)
    ensures OfferedUpTo(offered, owner.cursor)
  {
    forall s | 1 <= s <= owner.cursor
      ensures s in offered
    {
      if s > owner.start {
        assert owner.offers[s - owner.start - 1] == s;
      }
    }
  }

  // ----- creation and take-over -----

  lemma FirstRecordIsSound(run: RunConfig, ownerID: string, env: Env)
    requires ValidRun(run)
    ensures Sound(run, FirstRecord(run, ownerID, env), []) && Resumable(run, FirstRecord(run, ownerID, env))
  {
  }

  lemma StartKeeps(run: RunConfig, system: System, ownerID: string, env: Env)
    requires ValidRun(run) && Invariant(run, system)
    ensures Invariant(run, Next(run, system, Move(Start(ownerID), env)))
  {
    hide Step;
    var record := FirstRecord(run, ownerID, env);
    var written := Attempt(system.store, env, Created(system.store, record, env.now));
    if written.error.None? && ownerID != "" {
      ApplyKeepsWellFormed(system.store, Call(DoCreate(record), env.now));
      FirstRecordIsSound(run, ownerID, env);
      var head := written.store.head.value;
      SoundIgnoresLease(run, record, head, []);
      var owner := NewOwner(record);
      assert OwnerOK(run, written.store, owner);
    }
  }

  /** A claimed record keeps what was durable under the new claim. */
  lemma ClaimIsSound(run: RunConfig, loaded: Checkpoint, journal: seq<Record>, ownerID: string,
                     resolved: seq<ResolvedInterrupt>, env: Env)
    requires Sound(run, loaded, journal) && !Terminal(loaded.status)
    requires loaded.status != Interrupted ==> ValidInterruptProgress(run, loaded)
    ensures var claim :=
      ClaimRecord(run, loaded, ownerID, if loaded.status == Interrupted then Some(resolved) else None, env);
            Sound(run, claim, journal) && KeepsIntent(loaded, claim)
  {
  }

  lemma RestoredAgrees(run: RunConfig, store: RunStore, claimed: Checkpoint, env: Env)
    requires ValidRun(run) && store.head.Some? && Sound(run, store.head.value, store.journal) && env.now > 0
    requires Bare(claimed) == Bare(store.head.value) && claimed.status == Running && claimed.ownerID != ""
    ensures OwnerOK(run, store, Restored(run, claimed, env)) && Restored(run, claimed, env).control != Stopped
  {
    if claimed.payload.pendingEvent.Some? {
      var event := claimed.payload.pendingEvent.value;
      StampIsFixpoint(run, event, event.sequence, env.now, env.now);
    }
  }

  /** A resume either changes nothing or claims a snapshot that passed the checks. */
  lemma ResumeIsTakeOver(run: RunConfig, system: System, version: int, ownerID: string, resolutions: seq<Resolution>,
                         resolved: seq<ResolvedInterrupt>, env: Env)
    requires 1 <= version <= |system.store.history|
    ensures var after := Next(run, system, Move(Resume(version, ownerID, resolutions, resolved), env));
            var loaded := system.store.history[version - 1];
            var candidate :=
              ClaimRecord(run, loaded, ownerID, if loaded.status == Interrupted then Some(resolved) else None, env);
            || after == system
            || (!Terminal(loaded.status) && ValidInterruptProgress(run, loaded)
              && after == TakeOver(run, system, candidate, version, env))
  {
  }

  lemma ResumeKeeps(run: RunConfig, system: System, version: int, ownerID: string, resolutions: seq<Resolution>,
                    resolved: seq<ResolvedInterrupt>, env: Env)
    requires ValidRun(run) && env.now > 0 && Invariant(run, system) && 1 <= version <= |system.store.history|
    ensures Invariant(run, Next(run, system, Move(Resume(version, ownerID, resolutions, resolved), env)))
  {
    ResumeIsTakeOver(run, system, version, ownerID, resolutions, resolved, env);
    var loaded := system.store.history[version - 1];
    var answers := if loaded.status == Interrupted then Some(resolved) else None;
    if !Terminal(loaded.status) && ValidInterruptProgress(run, loaded) {
      ClaimKeeps(run, system, loaded, ClaimRecord(run, loaded, ownerID, answers, env), version, ownerID, resolved, env);
    }
  }

  lemma ClaimKeeps(run: RunConfig, system: System, loaded: Checkpoint, candidate: Checkpoint, version: int,
                   ownerID: string, resolved: seq<ResolvedInterrupt>, env: Env)
    requires ValidRun(run) && env.now > 0 && Invariant(run, system)
    requires 1 <= version <= |system.store.history| && loaded == system.store.history[version - 1]
    requires !Terminal(loaded.status) && ValidInterruptProgress(run, loaded)
    requires candidate
      == ClaimRecord(run, loaded, ownerID, if loaded.status == Interrupted then Some(resolved) else None, env)
    ensures Invariant(run, TakeOver(run, system, candidate, version, env))
  {
    var written := Claimed(system.store, candidate, version, env.now);
    if !env.fails && written.error.None? {
      ClaimedKeeps(run, system, loaded, candidate, version, env);
      ClaimIsSound(run, loaded, system.store.journal, ownerID, resolved, env);
      TakeOverKeeps(run, system, candidate, written.store, env);
    }
  }

  /** An accepted claim was made on the head itself. */
  lemma ClaimedKeeps(run: RunConfig, system: System, loaded: Checkpoint, candidate: Checkpoint, version: int, env: Env)
    requires Invariant(run, system) && 1 <= version <= |system.store.history|
    requires loaded == system.store.history[version - 1]
    requires candidate.claimSequence == loaded.claimSequence + 1
    requires Claimed(system.store, candidate, version, env.now).error.None?
    ensures system.store.head.Some? && loaded == system.store.head.value.(leaseExpiresAt := loaded.leaseExpiresAt)
    ensures Sound(run, loaded, system.store.journal)
    ensures var after := Claimed(system.store, candidate, version, env.now).store;
            && WellFormed(after) && after.head.Some? && after == Push(system.store, after.head.value)
            && Bare(after.head.value) == Bare(candidate.(version := version + 1))
  {
    ApplyKeepsWellFormed(system.store, Call(DoClaim(candidate, version), env.now));
    SoundIgnoresLease(run, system.store.head.value, loaded, system.store.journal);
  }

  lemma TakeOverKeeps(run: RunConfig, system: System, candidate: Checkpoint, after: RunStore, env: Env)
    requires ValidRun(run) && env.now > 0 && Invariant(run, system) && system.store.head.Some?
    requires WellFormed(after) && after.head.Some? && after == Push(system.store, after.head.value)
    requires Bare(after.head.value) == Bare(candidate.(version := after.head.value.version))
    requires candidate.claimSequence == system.store.head.value.claimSequence + 1
    requires candidate.status == Running && candidate.ownerID != ""
    requires Sound(run, candidate, system.store.journal) && KeepsIntent(system.store.head.value, candidate)
    requires candidate.confirmedSequence == system.store.head.value.confirmedSequence
    ensures Invariant(run,
      System(after, system.owners + [Restored(run, candidate.(version := after.head.value.version), env)],
        system.offered))
  {
    hide SoundStore;
    var claimed := candidate.(version := after.head.value.version);
    SoundIgnoresLease(run, candidate, after.head.value, system.store.journal);
    PushKeepsSound(run, system.store, after.head.value);
    RestoredAgrees(run, after, claimed, env);
    forall i | 0 <= i < |system.owners|
      ensures OwnerOK(run, after, system.owners[i])
    {
      assert OwnerOK(run, system.store, system.owners[i]);
    }
  }

  // ----- every reachable system -----

  ghost predicate ClockRuns(moves: seq<Move>) {
    forall i :: 0 <= i < |moves| ==> moves[i].env.now > 0
  }

  lemma NextKeeps(run: RunConfig, system: System, move: Move)
    requires ValidRun(run) && move.env.now > 0 && Invariant(run, system)
    ensures Invariant(run, Next(run, system, move))
  {
    match move.what
    case Start(ownerID) => StartKeeps(run, system, ownerID, move.env);
    case Resume(version, ownerID, resolutions, resolved) =>
      if 1 <= version <= |system.store.history| {
        ResumeKeeps(run, system, version, ownerID, resolutions, resolved, move.env);
      }
    case Act(index, action) => ActKeeps(run, system, index, action, move.env);
  }

  lemma {:induction false} Reachable(run: RunConfig, moves: seq<Move>)
    requires ValidRun(run) && ClockRuns(moves)
    ensures Invariant(run, Execution(run, moves))
  {
    if moves != [] {
      var last := |moves| - 1;
      Reachable(run, moves[..last]);
      NextKeeps(run, Execution(run, moves[..last]), moves[last]);
    }
  }
}
