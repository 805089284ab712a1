/** Versioned checkpoints with compare-and-swap, leases and claim sequences, and
    the ownership-fenced journal beside them (workflow/checkpoint_store.go). */
module CheckpointStore {
  import opened Options
  import opened Runlog

  const SCHEMA_VERSION := 2
  const MAX_PAYLOAD_BYTES := 4 * 1024 * 1024

  datatype Status = Running | Interrupted | Ended(outcome: Outcome)

  datatype ReplayStatus = ReplayUnknown | ReplaySafe | ReplayUnsafe

  datatype Identity = Identity(
    checkpointID: string,
    sessionID: string,
    runID: string,
    sourceRunID: string,
    sourceEventSeq: int,
    sourceRevisionID: string,
    workflowName: string,
    topologyVersion: string,
    schemaVersion: int)

  // A guard interrupt waiting for its resolution.
  datatype PendingInterrupt = PendingInterrupt(
    request: InterruptRequest,
    guardName: string,
    phase: string,
    nodeName: string,
    activationID: string,
    childRunID: string,
    childCheckpointID: string,
    candidateOutput: Option<string>)

  datatype ResolvedInterrupt = ResolvedInterrupt(
    interruptID: string,
    payloadRef: string,
    guardName: string,
    phase: string,
    nodeName: string,
    activationID: string,
    childRunID: string,
    childCheckpointID: string,
    candidateOutput: Option<string>)

  // The events of one interrupt batch and how many of them are journaled.
  datatype InterruptProgress = InterruptProgress(events: seq<Event>, next: int)

  // Encoded scheduler state, outputs and next step; only its size is looked at here.
  datatype Work = Work(encoded: string, nextStep: int, size: nat)

  datatype Payload = Payload(
    work: Work,
    ownerID: string,
    leaseExpiresAt: Time,
    claimSequence: int,
    eventCursor: int,
    pendingEvent: Option<Event>,
    pendingTerm: Option<Outcome>,
    pendingInterrupts: seq<PendingInterrupt>,
    interruptProgress: Option<InterruptProgress>,
    resolvedInterrupts: seq<ResolvedInterrupt>)

  datatype Checkpoint = Checkpoint(
    identity: Identity,
    version: int,
    status: Status,
    payload: Payload,
    confirmedSequence: int,
    pendingSequence: int,
    replayStatus: ReplayStatus,
    ownerID: string,
    leaseExpiresAt: Time,
    leaseDuration: int,
    claimSequence: int,
    createdAt: Time,
    updatedAt: Time)

  datatype Lease = Lease(runID: string, ownerID: string, claimSequence: int, expiresAt: Time, duration: int)

  datatype StoreError =
    | ContextDone
    | InvalidCheckpoint
    | CheckpointExists
    | CheckpointNotFound
    | CheckpointConflict
    | CheckpointMismatch
    | LeaseLost
    | LogRefused(refusal: AppendError)

  // What the store durably holds about one run.
  datatype RunStore = RunStore(head: Option<Checkpoint>, history: seq<Checkpoint>, journal: seq<Record>)

  datatype Written = Written(store: RunStore, error: Option<StoreError>)

  const EMPTY_STORE := RunStore(None, [], [])

  function Refused(store: RunStore, error: StoreError): Written {
    Written(store, Some(error))
  }

  predicate Terminal(status: Status) {
    status.Ended?
  }

  predicate ValidSourceLineage(sourceRunID: string, sourceEventSeq: int, sourceRevisionID: string) {
    && sourceEventSeq >= 0
    && ((sourceRunID == "") <==> (sourceEventSeq == 0))
    && (sourceRunID != "" || sourceRevisionID == "")
  }

  predicate ValidIdentity(identity: Identity) {
    && identity.checkpointID != "" && identity.sessionID != "" && identity.runID != ""
    && identity.workflowName != "" && identity.topologyVersion != ""
    && identity.schemaVersion == SCHEMA_VERSION
    && ValidSourceLineage(identity.sourceRunID, identity.sourceEventSeq, identity.sourceRevisionID)
  }

  predicate ValidCheckpoint(record: Checkpoint) {
    && ValidIdentity(record.identity)
    && record.confirmedSequence >= 0 && record.pendingSequence >= 0
    && record.leaseDuration >= 0
    && 0 < record.payload.work.size <= MAX_PAYLOAD_BYTES
    && record.createdAt != 0 && record.updatedAt != 0
  }

  function LeaseExpiry(now: Time, expiresAt: Time, duration: int): Time {
    if duration > 0 then now + duration else expiresAt
  }

  // ----- the operations on one run -----

  /** Stores a record: it becomes the head and the newest history entry. */
  function Push(store: RunStore, record: Checkpoint): RunStore {
    var kept := record.(leaseDuration := 0);
    store.(head := Some(kept), history := store.history + [kept])
  }

  function Created(store: RunStore, record: Checkpoint, now: Time): Written {
    if record.version != 1 || record.status != Running then Refused(store, InvalidCheckpoint)
    else if !ValidCheckpoint(record) then Refused(store, InvalidCheckpoint)
    else if store.head.Some? then Refused(store, CheckpointExists)
    else
      Written(Push(store,
        record.(leaseExpiresAt := LeaseExpiry(now, record.leaseExpiresAt, record.leaseDuration))), None)
  }

  function Claimed(store: RunStore, candidate: Checkpoint, version: int, now: Time): Written {
    if version <= 0 || candidate.version != version || candidate.status != Running || candidate.ownerID == ""
       || candidate.claimSequence <= 0 || (candidate.leaseDuration == 0 && candidate.leaseExpiresAt == 0)
       || !ValidCheckpoint(candidate)
    then Refused(store, InvalidCheckpoint)
    else
      var expiresAt := LeaseExpiry(now, candidate.leaseExpiresAt, candidate.leaseDuration);
      if expiresAt <= now then Refused(store, InvalidCheckpoint)
      else if store.head.None? then Refused(store, CheckpointNotFound)
      else
        var current := store.head.value;
        if current.version != version || Terminal(current.status) then Refused(store, CheckpointConflict)
        else if current.identity != candidate.identity then Refused(store, CheckpointMismatch)
        else if current.leaseExpiresAt > now || candidate.claimSequence != current.claimSequence + 1
        then Refused(store, CheckpointConflict)
        else Written(Push(store, candidate.(leaseExpiresAt := expiresAt, version := version + 1)), None)
  }

  function Renewed(store: RunStore, lease: Lease, now: Time): Written {
    if lease.runID == "" || lease.ownerID == "" || lease.claimSequence <= 0 || lease.duration < 0
       || (lease.duration == 0 && lease.expiresAt == 0)
    then Refused(store, InvalidCheckpoint)
    else if !Authorized(store, Fence(lease.ownerID, lease.claimSequence), now) then Refused(store, LeaseLost)
    else
      var expiresAt := LeaseExpiry(now, lease.expiresAt, lease.duration);
      if expiresAt <= now then Refused(store, InvalidCheckpoint)
      else if expiresAt <= store.head.value.leaseExpiresAt then Written(store, None)
      else Written(store.(head := Some(store.head.value.(leaseExpiresAt := expiresAt))), None)
  }

  /** The outcome of Save when `terminal` is false, of Finish when it is true. */
  function Stored(store: RunStore, record: Checkpoint, version: int, terminal: bool, now: Time): Written {
    if version <= 0 || record.version != version then Refused(store, CheckpointConflict)
    else if terminal != Terminal(record.status) then Refused(store, InvalidCheckpoint)
    else if !ValidCheckpoint(record) then Refused(store, InvalidCheckpoint)
    else if store.head.None? then Refused(store, CheckpointNotFound)
    else
      var current := store.head.value;
      if current.identity != record.identity then Refused(store, CheckpointMismatch)
      else if record.claimSequence != current.claimSequence
        || (record.ownerID != "" && record.ownerID != current.ownerID)
      then Refused(store, LeaseLost)
      else if current.ownerID != "" && current.leaseExpiresAt <= now then Refused(store, LeaseLost)
      else if Terminal(current.status) || current.version != version then Refused(store, CheckpointConflict)
      else
        var expiresAt := if record.ownerID == "" then 0 else
          Later(current.leaseExpiresAt, LeaseExpiry(now, 0, record.leaseDuration));
        Written(Push(store, record.(leaseExpiresAt := expiresAt, version := version + 1)), None)
  }

  function Later(left: Time, right: Time): Time {
    if right > left then right else left
  }

  /** A claim may act on the run: it is the current one and its lease is live. */
  predicate Authorized(store: RunStore, fence: Fence, now: Time) {
    && store.head.Some?
    && store.head.value.status == Running
    && store.head.value.ownerID == fence.ownerID
    && store.head.value.claimSequence == fence.claimSequence
    && store.head.value.leaseExpiresAt > now
  }

  function Journaled(store: RunStore, record: Record, fence: Fence, now: Time): Written {
    if fence.ownerID == "" || fence.claimSequence <= 0 then Refused(store, InvalidCheckpoint)
    else if !Authorized(store, fence, now) then Refused(store, LeaseLost)
    else
      var appending := Appended(store.journal, record);
      Written(store.(journal := appending.records),
              if appending.error.None? then None else Some(LogRefused(appending.error.value)))
  }

  // ----- the in-memory store -----

  class MemoryStore {
    var records: map<string, Checkpoint>
    var history: map<string, seq<Checkpoint>>
    const log: MemoryLog

    ghost predicate Valid()
      reads this, log
    {
      && log.Valid()
      && records.Keys == history.Keys
    }

    /** What this store holds about one run. */
    ghost function Run(runID: string): RunStore
      reads this, log
    {
      RunStore(if runID in records then Some(records[runID]) else None,
               if runID in history then history[runID] else [],
               RunRecords(log.records, runID))
    }

    twostate predicate OthersUnchanged(runID: string)
      reads this, log
    {
      forall other: string :: other != runID ==> Run(other) == old(Run(other))
    }

    constructor ()
      ensures Valid() && fresh(log)
      ensures forall runID: string :: Run(runID) == EMPTY_STORE
    {
      records, history := map[], map[];
      log := new MemoryLog();
    }

    method Put(record: Checkpoint)
      requires Valid()
      modifies this
      ensures Valid() && OthersUnchanged(record.identity.runID)
      ensures Run(record.identity.runID) == Push(old(Run(record.identity.runID)), record)
    {
      var runID, kept := record.identity.runID, record.(leaseDuration := 0);
      records := records[runID := kept];
      history := history[runID := (if runID in history then history[runID] else []) + [kept]];
    }

    method Create(ctxDone: bool, record: Checkpoint, now: Time) returns (error: Option<StoreError>)
      requires Valid()
      modifies this
      ensures Valid() && OthersUnchanged(record.identity.runID)
      ensures Written(Run(record.identity.runID), error)
           == if ctxDone then Refused(old(Run(record.identity.runID)), ContextDone)
              else Created(old(Run(record.identity.runID)), record, now)
    {
      if ctxDone { return Some(ContextDone); }
      if record.version != 1 || record.status != Running { return Some(InvalidCheckpoint); }
      if !ValidCheckpoint(record) { return Some(InvalidCheckpoint); }
      if record.identity.runID in records { return Some(CheckpointExists); }
      var stored := record;
      if record.leaseDuration > 0 {
        stored := record.(leaseExpiresAt := now + record.leaseDuration);
      }
      Put(stored);
      return None;
    }

    /** The latest record of a run. */
    method Load(ctxDone: bool, runID: string) returns (result: Option<Checkpoint>, error: Option<StoreError>)
      requires Valid()
      ensures error.None? <==> !ctxDone && runID != "" && Run(runID).head.Some?
      ensures error.None? ==> result == Run(runID).head
    {
      if ctxDone { return None, Some(ContextDone); }
      if runID == "" { return None, Some(InvalidCheckpoint); }
      if runID !in records { return None, Some(CheckpointNotFound); }
      return Some(records[runID]), None;
    }

    method Claim(ctxDone: bool, candidate: Checkpoint, version: int, now: Time) returns (error: Option<StoreError>)
      requires Valid()
      modifies this
      ensures Valid() && OthersUnchanged(candidate.identity.runID)
      ensures Written(Run(candidate.identity.runID), error)
           == if ctxDone then Refused(old(Run(candidate.identity.runID)), ContextDone)
              else Claimed(old(Run(candidate.identity.runID)), candidate, version, now)
    {
      if ctxDone { return Some(ContextDone); }
      if version <= 0 || candidate.version != version || candidate.status != Running || candidate.ownerID == ""
         || candidate.claimSequence <= 0 || (candidate.leaseDuration == 0 && candidate.leaseExpiresAt == 0) {
        return Some(InvalidCheckpoint);
      }
      if !ValidCheckpoint(candidate) { return Some(InvalidCheckpoint); }
      var expiresAt := LeaseExpiry(now, candidate.leaseExpiresAt, candidate.leaseDuration);
      if expiresAt <= now { return Some(InvalidCheckpoint); }
      if candidate.identity.runID !in records { return Some(CheckpointNotFound); }
      var current := records[candidate.identity.runID];
      if current.version != version || (current.status != Running && current.status != Interrupted) {
        return Some(CheckpointConflict);
      }
      if current.identity != candidate.identity { return Some(CheckpointMismatch); }
      if current.leaseExpiresAt > now || candidate.claimSequence != current.claimSequence + 1 {
        return Some(CheckpointConflict);
      }
      Put(candidate.(leaseExpiresAt := expiresAt, version := version + 1));
      return None;
    }

    method RenewLease(ctxDone: bool, lease: Lease, now: Time) returns (error: Option<StoreError>)
      requires Valid()
      modifies this`records
      ensures Valid() && OthersUnchanged(lease.runID)
      ensures Written(Run(lease.runID), error)
           == if ctxDone then Refused(old(Run(lease.runID)), ContextDone)
              else Renewed(old(Run(lease.runID)), lease, now)
    {
      if ctxDone { return Some(ContextDone); }
      if lease.runID == "" || lease.ownerID == "" || lease.claimSequence <= 0 || lease.duration < 0
         || (lease.duration == 0 && lease.expiresAt == 0) {
        return Some(InvalidCheckpoint);
      }
      if lease.runID !in records { return Some(LeaseLost); }
      var current := records[lease.runID];
      if current.status != Running || current.ownerID != lease.ownerID || current.claimSequence != lease.claimSequence {
        return Some(LeaseLost);
      }
      if current.leaseExpiresAt <= now { return Some(LeaseLost); }
      var expiresAt := LeaseExpiry(now, lease.expiresAt, lease.duration);
      if expiresAt <= now { return Some(InvalidCheckpoint); }
      if expiresAt <= current.leaseExpiresAt { return None; }
      records := records[lease.runID := current.(leaseExpiresAt := expiresAt)];
      return None;
    }

    /** Save (not terminal) and Finish (terminal). */
    method Write(ctxDone: bool, record: Checkpoint, version: int, terminal: bool, now: Time)
      returns (error: Option<StoreError>)
      requires Valid()
      modifies this
      ensures Valid() && OthersUnchanged(record.identity.runID)
      ensures Written(Run(record.identity.runID), error)
           == if ctxDone then Refused(old(Run(record.identity.runID)), ContextDone)
              else Stored(old(Run(record.identity.runID)), record, version, terminal, now)
    {
      if ctxDone { return Some(ContextDone); }
      if version <= 0 || record.version != version { return Some(CheckpointConflict); }
      if terminal != Terminal(record.status) { return Some(InvalidCheckpoint); }
      if !ValidCheckpoint(record) { return Some(InvalidCheckpoint); }
      if record.identity.runID !in records { return Some(CheckpointNotFound); }
      var current := records[record.identity.runID];
      if current.identity != record.identity { return Some(CheckpointMismatch); }
      if record.claimSequence != current.claimSequence || (record.ownerID != "" && record.ownerID != current.ownerID) {
        return Some(LeaseLost);
      }
      if current.ownerID != "" && current.leaseExpiresAt <= now { return Some(LeaseLost); }
      if Terminal(current.status) { return Some(CheckpointConflict); }
      if current.version != version { return Some(CheckpointConflict); }
      var stored := record;
      if record.ownerID == "" {
        stored := record.(leaseExpiresAt := 0, leaseDuration := 0);
      } else {
        stored := record.(leaseExpiresAt := current.leaseExpiresAt);
        var expiresAt := LeaseExpiry(now, 0, record.leaseDuration);
        if expiresAt > stored.leaseExpiresAt {
          stored := stored.(leaseExpiresAt := expiresAt);
        }
      }
      Put(stored.(version := version + 1));
      return None;
    }

    method AppendFenced(ctxDone: bool, record: Record, fence: Fence, now: Time) returns (error: Option<StoreError>)
      requires Valid()
      modifies log
      ensures Valid() && OthersUnchanged(record.runID)
      ensures Written(Run(record.runID), error)
           == if ctxDone then Refused(old(Run(record.runID)), ContextDone)
              else Journaled(old(Run(record.runID)), record, fence, now)
    {
      if ctxDone { return Some(ContextDone); }
      if fence.ownerID == "" || fence.claimSequence <= 0 { return Some(InvalidCheckpoint); }
      if record.runID !in records { return Some(LeaseLost); }
      var current := records[record.runID];
      if current.status != Running || current.ownerID != fence.ownerID
         || current.claimSequence != fence.claimSequence || current.leaseExpiresAt <= now {
        return Some(LeaseLost);
      }
      ghost var before := log.records;
      var accepted, refusal := log.Append(false, record);
      forall other: string
        ensures RunRecords(log.records, other)
             == if other == record.runID then Appended(RunRecords(before, other), record).records
                else RunRecords(before, other)
      {
        AppendIsPerRun(before, record, other);
      }
      AppendIsPerRun(before, record, record.runID);
      if accepted { return None; }
      return Some(LogRefused(refusal.value));
    }

    /** Versions after a given one, in ascending order, cut to the limit. */
    method ListCheckpoints(ctxDone: bool, runID: string, afterVersion: int, limit: int)
      returns (listed: bool, result: seq<Checkpoint>)
      requires Valid()
      ensures listed <==> !ctxDone && runID != "" && afterVersion >= 0 && limit >= 0 && Run(runID).head.Some?
      ensures listed ==> result == Page(VersionsAfter(Run(runID).history, afterVersion), limit)
    {
      result := [];
      if ctxDone || runID == "" || afterVersion < 0 || limit < 0 || runID !in history {
        return false, result;
      }
      var entries, index := history[runID], 0;
      while index < |entries|
        invariant 0 <= index <= |entries|
        invariant result == VersionsAfter(entries[..index], afterVersion)
        invariant limit > 0 ==> |result| < limit
      {
        VersionsAfterExtends(entries, index, afterVersion);
        if entries[index].version > afterVersion {
          result := result + [entries[index]];
          if limit > 0 && |result| == limit {
            VersionsAfterGrows(entries, index + 1, afterVersion);
            return true, result;
          }
        }
        index := index + 1;
      }
      assert entries[..index] == entries;
      return true, result;
    }
  }

  function VersionsAfter(history: seq<Checkpoint>, afterVersion: int): seq<Checkpoint> {
    if history == [] then []
    else
      var last := |history| - 1;
      VersionsAfter(history[..last], afterVersion)
      + (if history[last].version > afterVersion then [history[last]] else [])
  }

  lemma VersionsAfterExtends(history: seq<Checkpoint>, index: nat, afterVersion: int)
    requires index < |history|
    ensures VersionsAfter(history[..index + 1], afterVersion)
         == VersionsAfter(history[..index], afterVersion)
            + (if history[index].version > afterVersion then [history[index]] else [])
  {
    assert history[..index + 1][..index] == history[..index];
  }

  lemma {:induction false} VersionsAfterGrows(history: seq<Checkpoint>, index: nat, afterVersion: int)
    requires index <= |history|
    ensures VersionsAfter(history[..index], afterVersion) <= VersionsAfter(history, afterVersion)
    decreases |history| - index
  {
    if index == |history| {
      assert history[..index] == history;
    } else {
      VersionsAfterExtends(history, index, afterVersion);
      VersionsAfterGrows(history, index + 1, afterVersion);
    }
  }
}
