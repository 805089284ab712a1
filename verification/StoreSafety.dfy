/** What every sequence of store calls keeps: versioned append-only history,
    frozen terminal records, fencing of superseded claims and disjoint leases. */
module StoreSafety {
  import opened Options
  import opened Runlog
  import opened CheckpointStore

  datatype Operation =
    | DoCreate(record: Checkpoint)
    | DoClaim(candidate: Checkpoint, version: int)
    | DoRenew(lease: Lease)
    | DoWrite(record: Checkpoint, version: int, terminal: bool)
    | DoAppend(entry: Record, fence: Fence)

  datatype Call = Call(operation: Operation, now: Time)

  function Apply(store: RunStore, call: Call): Written {
    match call.operation
    case DoCreate(record) => Created(store, record, call.now)
    case DoClaim(candidate, version) => Claimed(store, candidate, version, call.now)
    case DoRenew(lease) => Renewed(store, lease, call.now)
    case DoWrite(record, version, terminal) => Stored(store, record, version, terminal, call.now)
    case DoAppend(entry, fence) => Journaled(store, entry, fence, call.now)
  }

  /** A refused call leaves everything as it was. */
  lemma RefusalChangesNothing(store: RunStore, call: Call)
    ensures Apply(store, call).error.Some? ==> Apply(store, call).store == store
  {
    if call.operation.DoAppend? {
      var journal, entry := store.journal, call.operation.entry;
      assert Appended(journal, entry).error.Some? ==> Appended(journal, entry).records == journal;
    }
  }

  /** The store after any callers made these calls in this order. */
  function After(store: RunStore, calls: seq<Call>): RunStore {
    if calls == [] then store else Apply(After(store, calls[..|calls| - 1]), calls[|calls| - 1]).store
  }

  /** The claim a call acts under; creation acts under none. */
  function ClaimOf(operation: Operation): Option<int> {
    match operation
    case DoCreate(_) => None
    case DoClaim(candidate, _) => Some(candidate.claimSequence)
    case DoRenew(lease) => Some(lease.claimSequence)
    case DoWrite(record, _, _) => Some(record.claimSequence)
    case DoAppend(_, fence) => Some(fence.claimSequence)
  }

  ghost predicate Ordered(calls: seq<Call>) {
    forall i, j :: 0 <= i < j < |calls| ==> calls[i].now <= calls[j].now
  }

  // ----- the invariant -----

  /** Two records that differ at most in how far the lease has been extended. */
  ghost predicate SameButLaterLease(kept: Checkpoint, head: Checkpoint) {
    head == kept.(leaseExpiresAt := head.leaseExpiresAt) && kept.leaseExpiresAt <= head.leaseExpiresAt
  }

  ghost predicate WellFormed(store: RunStore) {
    && (store.head.None? ==> store.history == [] && store.journal == [])
    && (store.head.Some? ==>
          && store.history != []
          && SameButLaterLease(store.history[|store.history| - 1], store.head.value)
          && (Terminal(store.head.value.status) ==> store.history[|store.history| - 1] == store.head.value))
    && (forall i :: 0 <= i < |store.history| ==> store.history[i].version == i + 1)
    && (forall i :: 0 <= i < |store.history| - 1 ==> !Terminal(store.history[i].status))
    && (forall i, j :: 0 <= i <= j < |store.history| ==>
          store.history[i].claimSequence <= store.history[j].claimSequence)
    && UniqueKeys(store.journal)
  }

  lemma PushKeepsWellFormed(store: RunStore, record: Checkpoint)
    requires WellFormed(store)
    requires record.version == |store.history| + 1
    requires store.head.Some? ==>
               !Terminal(store.head.value.status) && record.claimSequence >= store.head.value.claimSequence
    ensures WellFormed(Push(store, record))
    ensures store.history <= Push(store, record).history
  {
  }

  lemma AppendedKeepsUniqueKeys(journal: seq<Record>, entry: Record)
    requires UniqueKeys(journal)
    ensures UniqueKeys(Appended(journal, entry).records) && journal <= Appended(journal, entry).records
  {
  }

  lemma ApplyKeepsWellFormed(store: RunStore, call: Call)
    requires WellFormed(store)
    ensures WellFormed(Apply(store, call).store)
    ensures store.history <= Apply(store, call).store.history
    ensures store.journal <= Apply(store, call).store.journal
    ensures Apply(store, call).error.Some? ==> Apply(store, call).store == store
  {
    hide KeyOf, Later, UniqueKeys, Stored, ValidCheckpoint, Push, Claimed, SameButLaterLease, LeaseExpiry, Created;
    match call.operation
    case DoAppend(entry, _) => AppendedKeepsUniqueKeys(store.journal, entry);
    case DoRenew(lease) => RenewKeepsWellFormed(store, lease, call.now);
    case DoCreate(_) => StoringKeepsWellFormed(store, call);
    case DoClaim(_, _) => StoringKeepsWellFormed(store, call);
    case DoWrite(_, _, _) => StoringKeepsWellFormed(store, call);
  }

  lemma RenewKeepsWellFormed(store: RunStore, lease: Lease, now: Time)
    requires WellFormed(store)
    ensures WellFormed(Renewed(store, lease, now).store)
  {
  }

  /** Creating, claiming and writing store one record: the next version. */
  lemma StoringIsPush(store: RunStore, call: Call)
    requires WellFormed(store)
    requires call.operation.DoCreate? || call.operation.DoClaim? || call.operation.DoWrite?
    requires Apply(store, call).error.None?
    ensures var record := Apply(store, call).store.head.value;
            && Apply(store, call).store == Push(store, record)
            && record.version == |store.history| + 1
            && (store.head.Some? ==>
                  !Terminal(store.head.value.status) && record.claimSequence >= store.head.value.claimSequence)
  {
  }

  lemma StoringKeepsWellFormed(store: RunStore, call: Call)
    requires WellFormed(store)
    requires call.operation.DoCreate? || call.operation.DoClaim? || call.operation.DoWrite?
    ensures WellFormed(Apply(store, call).store) && store.history <= Apply(store, call).store.history
    ensures Apply(store, call).store.journal == store.journal
    ensures Apply(store, call).error.Some? ==> Apply(store, call).store == store
  {
    if Apply(store, call).error.None? {
      StoringIsPush(store, call);
      PushKeepsWellFormed(store, Apply(store, call).store.head.value);
    }
  }

  /** In every reachable state the history is append-only with versions exactly
      1..n, the head is its last entry up to a later lease, claim sequences never
      decrease, and only the last entry can be terminal. */
  lemma {:induction false} ReachableIsWellFormed(calls: seq<Call>)
    ensures WellFormed(After(EMPTY_STORE, calls))
  {
    if calls != [] {
      ReachableIsWellFormed(calls[..|calls| - 1]);
      ApplyKeepsWellFormed(After(EMPTY_STORE, calls[..|calls| - 1]), calls[|calls| - 1]);
    }
  }

  lemma {:induction false} HistoryOnlyGrows(store: RunStore, calls: seq<Call>)
    requires WellFormed(store)
    ensures WellFormed(After(store, calls))
    ensures store.history <= After(store, calls).history && store.journal <= After(store, calls).journal
  {
    if calls != [] {
      HistoryOnlyGrows(store, calls[..|calls| - 1]);
      ApplyKeepsWellFormed(After(store, calls[..|calls| - 1]), calls[|calls| - 1]);
    }
  }

  /** Once a terminal record is durable nothing about the run changes again. */
  lemma {:induction false} TerminalIsFrozen(store: RunStore, calls: seq<Call>)
    requires WellFormed(store) && store.head.Some? && Terminal(store.head.value.status)
    ensures After(store, calls) == store
  {
    if calls != [] {
      TerminalIsFrozen(store, calls[..|calls| - 1]);
    }
  }

  // ----- fencing -----

  lemma {:induction false} ClaimsNeverDecrease(store: RunStore, calls: seq<Call>)
    requires store.head.Some?
    ensures After(store, calls).head.Some?
    ensures After(store, calls).head.value.claimSequence >= store.head.value.claimSequence
  {
    if calls != [] {
      ClaimsNeverDecrease(store, calls[..|calls| - 1]);
    }
  }

  /** After claim k+1 is granted, no call under a claim at or below k succeeds,
      however many other calls came in between. */
  lemma SupersededClaimIsFenced(store: RunStore, candidate: Checkpoint, version: int, granted: Time, calls: seq<Call>,
                                call: Call)
    requires WellFormed(store)
    requires Claimed(store, candidate, version, granted).error.None?
    requires ClaimOf(call.operation).Some? && ClaimOf(call.operation).value < candidate.claimSequence
    ensures Apply(After(Claimed(store, candidate, version, granted).store, calls), call).error.Some?
    ensures Apply(After(Claimed(store, candidate, version, granted).store, calls), call).store
         == After(Claimed(store, candidate, version, granted).store, calls)
  {
    ClaimsNeverDecrease(Claimed(store, candidate, version, granted).store, calls);
  }

  /** A claim is granted exactly one above the head's, to a live lease, and only
      once the head's own lease is over. */
  lemma ClaimGrant(store: RunStore, candidate: Checkpoint, version: int, now: Time)
    requires store.head.Some? && Claimed(store, candidate, version, now).error.None?
    ensures candidate.claimSequence == store.head.value.claimSequence + 1
    ensures store.head.value.leaseExpiresAt <= now
    ensures Authorized(Claimed(store, candidate, version, now).store,
      Fence(candidate.ownerID, candidate.claimSequence), now)
  {
  }

  /** And once the lease is over it is granted to whoever asks for it properly. */
  lemma ClaimIsGranted(store: RunStore, candidate: Checkpoint, now: Time)
    requires store.head.Some? && !Terminal(store.head.value.status) && store.head.value.leaseExpiresAt <= now
    requires ValidCheckpoint(candidate) && candidate.status == Running && candidate.ownerID != ""
    requires candidate.identity == store.head.value.identity && candidate.version == store.head.value.version > 0
    requires candidate.claimSequence == store.head.value.claimSequence + 1 > 0 && candidate.leaseDuration > 0
    ensures var claimed := Claimed(store, candidate, candidate.version, now);
            && claimed.error.None? && claimed.store.head.Some?
            && claimed.store.head.value.leaseExpiresAt == now + candidate.leaseDuration
            && claimed.store.head.value.ownerID == candidate.ownerID
  {
  }

  /** A run given up by its owner can be claimed at any time from then on. */
  lemma GivenUpCanBeClaimed(store: RunStore, call: Call, candidate: Checkpoint, now: Time)
    requires Apply(store, call).error.None? && call.operation.DoWrite?
      && call.operation.record.ownerID == "" && now >= 0
    requires var head := Apply(store, call).store.head.value;
      && !Terminal(head.status) && ValidCheckpoint(candidate) && candidate.status == Running && candidate.ownerID != ""
      && candidate.identity == head.identity && candidate.version == head.version
      && candidate.claimSequence == head.claimSequence + 1 > 0 && candidate.leaseDuration > 0
    ensures Claimed(Apply(store, call).store, candidate, candidate.version, now).error.None?
  {
  }

  // ----- leases -----

  /** How long a call asks to hold the run. */
  function DurationOf(operation: Operation): int {
    match operation
    case DoCreate(record) => record.leaseDuration
    case DoClaim(candidate, _) => candidate.leaseDuration
    case DoRenew(lease) => lease.duration
    case DoWrite(record, _, _) => record.leaseDuration
    case DoAppend(_, _) => 0
  }

  /** An accepted call that names an owner lets it hold the run for at least as long as it
      asks, from the store's own clock, and shortens no lease. */
  lemma LeaseIsGranted(store: RunStore, call: Call)
    requires Apply(store, call).error.None? && !call.operation.DoAppend? && OwnerOf(call.operation) != ""
    ensures var head := Apply(store, call).store.head;
            && head.Some? && head.value.ownerID == OwnerOf(call.operation)
            && (DurationOf(call.operation) > 0 ==> head.value.leaseExpiresAt >= call.now + DurationOf(call.operation))
            && (call.operation.DoRenew? || call.operation.DoWrite? ==>
                  head.value.leaseExpiresAt >= store.head.value.leaseExpiresAt)
  {
  }

  /** The head is held by this claim until at least this time. */
  ghost predicate HeldUntil(store: RunStore, fence: Fence, expiresAt: Time) {
    && store.head.Some?
    && store.head.value.ownerID == fence.ownerID != ""
    && store.head.value.claimSequence == fence.claimSequence
    && store.head.value.leaseExpiresAt >= expiresAt
  }

  /** The owner gave the claim up: its last record names no owner. */
  ghost predicate ReleasedDuring(store: RunStore, calls: seq<Call>, claimSequence: int) {
    exists i :: 0 <= i <= |calls| && Released(After(store, calls[..i]), claimSequence)
  }

  ghost predicate Released(store: RunStore, claimSequence: int) {
    store.head.Some? && store.head.value.claimSequence == claimSequence && store.head.value.ownerID == ""
  }

  /** A claim was granted by one of these calls at or after the given time. */
  ghost predicate SucceededAfter(store: RunStore, calls: seq<Call>, time: Time) {
    exists i :: 0 <= i < |calls| && GrantsAt(After(store, calls[..i]), calls[i], time)
  }

  ghost predicate GrantsAt(store: RunStore, call: Call, time: Time) {
    call.operation.DoClaim? && Apply(store, call).error.None? && call.now >= time
  }

  lemma HeldThroughCall(store: RunStore, call: Call, fence: Fence, expiresAt: Time)
    requires HeldUntil(store, fence, expiresAt)
    ensures HeldUntil(Apply(store, call).store, fence, expiresAt)
         || Released(Apply(store, call).store, fence.claimSequence)
         || GrantsAt(store, call, expiresAt)
  {
  }

  /** Lease windows of successive claims never overlap: a held claim keeps its
      expiry, which never moves backwards, until its owner releases it or until a
      successor is granted, and that is not before the expiry. */
  lemma {:induction false} LeaseWindowsDoNotOverlap(store: RunStore, calls: seq<Call>, fence: Fence, expiresAt: Time)
    requires HeldUntil(store, fence, expiresAt)
    ensures HeldUntil(After(store, calls), fence, expiresAt)
         || ReleasedDuring(store, calls, fence.claimSequence)
         || SucceededAfter(store, calls, expiresAt)
  {
    if calls != [] {
      hide Apply;
      var last := |calls| - 1;
      var earlier, before := calls[..last], After(store, calls[..last]);
      LeaseWindowsDoNotOverlap(store, earlier, fence, expiresAt);
      if ReleasedDuring(store, earlier, fence.claimSequence) {
        var i :| 0 <= i <= |earlier| && Released(After(store, earlier[..i]), fence.claimSequence);
        assert calls[..i] == earlier[..i];
      } else if SucceededAfter(store, earlier, expiresAt) {
        var i :| 0 <= i < |earlier| && GrantsAt(After(store, earlier[..i]), earlier[i], expiresAt);
        assert calls[..i] == earlier[..i] && calls[i] == earlier[i];
      } else {
        HeldThroughCall(before, calls[last], fence, expiresAt);
        assert calls[..|calls|] == calls;
      }
    }
  }

  /** Nobody acts on a run under a lease that is over: no append, no renewal, and no
      write while the run has an owner. */
  lemma ExpiredIsRefused(store: RunStore, call: Call)
    requires store.head.Some? && store.head.value.leaseExpiresAt <= call.now
    requires call.operation.DoAppend? || call.operation.DoRenew?
      || (call.operation.DoWrite? && store.head.value.ownerID != "")
    ensures Apply(store, call).error.Some? && Apply(store, call).store == store
  {
    RefusalChangesNothing(store, call);
  }

  /** Appending and renewing is for the owner of a running run, under its claim and its
      live lease; so is writing, but that a run nobody owns may be written under the
      current claim, and that a write may give the run up. */
  lemma OnlyTheHolderActs(store: RunStore, call: Call)
    requires Apply(store, call).error.None?
    ensures call.operation.DoAppend? || call.operation.DoRenew? || call.operation.DoWrite? ==>
      store.head.Some? && ClaimOf(call.operation) == Some(store.head.value.claimSequence)
    ensures call.operation.DoAppend? || call.operation.DoRenew? ==>
      store.head.value.status == Running && OwnerOf(call.operation) == store.head.value.ownerID != ""
        && store.head.value.leaseExpiresAt > call.now
    ensures call.operation.DoWrite? ==>
      && !Terminal(store.head.value.status) && call.operation.version == store.head.value.version
      && (OwnerOf(call.operation) == store.head.value.ownerID || OwnerOf(call.operation) == "")
      && (store.head.value.ownerID != "" ==> store.head.value.leaseExpiresAt > call.now)
  {
  }

  /** The owner a call names. */
  function OwnerOf(operation: Operation): string {
    match operation
    case DoCreate(record) => record.ownerID
    case DoClaim(candidate, _) => candidate.ownerID
    case DoRenew(lease) => lease.ownerID
    case DoWrite(record, _, _) => record.ownerID
    case DoAppend(_, fence) => fence.ownerID
  }

  /** A call its owner makes under this claim. */
  predicate ActsFor(operation: Operation, fence: Fence) {
    && (operation.DoAppend? || operation.DoRenew? || operation.DoWrite?)
    && OwnerOf(operation) == fence.ownerID && ClaimOf(operation) == Some(fence.claimSequence)
  }

  /** Whatever calls follow the loss of a lease, its owner's calls under that claim all
      fail, and change nothing. */
  lemma LostNeverActs(store: RunStore, calls: seq<Call>, fence: Fence, lost: Time, call: Call)
    requires LostAt(store, fence, lost) && ActsFor(call.operation, fence)
    requires Ordered(calls) && (forall i :: 0 <= i < |calls| ==> lost <= calls[i].now <= call.now) && lost <= call.now
    requires forall i :: 0 <= i < |calls| ==> HoldsWhileRunning(calls[i].operation)
    ensures Apply(After(store, calls), call).error.Some?
    ensures Apply(After(store, calls), call).store == After(store, calls)
  {
    LostStaysLost(store, calls, fence, lost, call.now);
    LostActs(After(store, calls), call, fence);
  }

  lemma LostActs(store: RunStore, call: Call, fence: Fence)
    requires LostAt(store, fence, call.now) && ActsFor(call.operation, fence)
    ensures Apply(store, call).error.Some? && Apply(store, call).store == store
  {
    RefusalChangesNothing(store, call);
  }

  /** A lease that has been lost once stays lost: whatever calls follow, its owner is
      never again entitled to act under that claim. */
  lemma {:induction false} LostStaysLost(store: RunStore, calls: seq<Call>, fence: Fence, lost: Time, now: Time)
    requires LostAt(store, fence, lost)
    requires Ordered(calls) && (forall i :: 0 <= i < |calls| ==> lost <= calls[i].now <= now) && lost <= now
    requires forall i :: 0 <= i < |calls| ==> HoldsWhileRunning(calls[i].operation)
    ensures LostAt(After(store, calls), fence, now)
  {
    if calls != [] {
      var last := |calls| - 1;
      LostStaysLost(store, calls[..last], fence, lost, calls[last].now);
      LostStep(After(store, calls[..last]), calls[last], fence, now);
    }
  }

  /** The claim was superseded, given up, or ended, or its lease is over. */
  ghost predicate LostAt(store: RunStore, fence: Fence, now: Time) {
    && fence.ownerID != ""
    && store.head.Some? && store.head.value.claimSequence >= fence.claimSequence
    && (store.head.value.ownerID != "" ==> store.head.value.status == Running)
    && (|| store.head.value.claimSequence > fence.claimSequence || store.head.value.ownerID != fence.ownerID
        || store.head.value.status != Running || store.head.value.leaseExpiresAt <= now)
  }

  // Writers name an owner only on running records.
  ghost predicate HoldsWhileRunning(operation: Operation) {
    operation.DoWrite? && operation.record.ownerID != "" ==> operation.record.status == Running
  }

  lemma LostStep(store: RunStore, call: Call, fence: Fence, now: Time)
    requires LostAt(store, fence, call.now) && HoldsWhileRunning(call.operation) && call.now <= now
    ensures LostAt(Apply(store, call).store, fence, now)
  {
    match call.operation
    case DoCreate(_) =>
    case DoClaim(_, _) =>
    case DoRenew(_) =>
    case DoWrite(_, _, _) =>
    case DoAppend(_, _) =>
  }
}
