/** The laws of the run protocol, for every reachable system. */
module RunLaws {
  import opened Runlog
  import opened CheckpointStore
  import opened RunProtocol
  import opened RunInvariant
  import opened RunTheorems

  /** The journal is exactly sequences 1..n; the confirmed cursor is at most n; a
      pending event has the next sequence and is either not journaled yet or is
      exactly the record journaled there. */
  lemma JournalAndCursor(run: RunConfig, moves: seq<Move>)
    requires ValidRun(run) && ClockRuns(moves)
    ensures var store := Execution(run, moves).store;
            && (forall i :: 0 <= i < |store.journal| ==>
                  store.journal[i].sequence == i + 1 && store.journal[i].runID == run.identity.runID)
            && (store.head.Some? ==>
                  var head, confirmed := store.head.value, store.head.value.confirmedSequence;
                  && 0 <= confirmed == head.payload.eventCursor <= |store.journal|
                  && (head.payload.pendingEvent.Some? ==>
                        && head.payload.pendingEvent.value.sequence == head.pendingSequence == confirmed + 1
                        && (|store.journal| == confirmed
                            || store.journal[confirmed] == Entry(run, head.payload.pendingEvent.value))))
  {
    Reachable(run, moves);
  }

  lemma {:induction false} IntentKept(run: RunConfig, history: seq<Checkpoint>, i: nat, j: nat)
    requires Chained(history) && i <= j < |history|
    requires forall k :: 0 <= k < |history| - 1 ==> !Terminal(history[k].status)
    requires history[i].payload.pendingTerm.Some?
    ensures history[j].payload.pendingTerm == history[i].payload.pendingTerm
         || history[j].status == Ended(history[i].payload.pendingTerm.value)
    decreases j - i
  {
    if i < j {
      IntentKept(run, history, i, j - 1);
      assert KeepsIntent(history[j - 1], history[j]);
    }
  }

  /** Once a pending terminal outcome is durable, every later version of the run
      carries it on or has ended with it. */
  lemma TerminalIntentIsKept(run: RunConfig, moves: seq<Move>, i: nat, j: nat)
    requires ValidRun(run) && ClockRuns(moves)
    requires i <= j < |Execution(run, moves).store.history|
    requires Execution(run, moves).store.history[i].payload.pendingTerm.Some?
    ensures var history := Execution(run, moves).store.history;
            || history[j].payload.pendingTerm == history[i].payload.pendingTerm
            || history[j].status == Ended(history[i].payload.pendingTerm.value)
  {
    Reachable(run, moves);
    IntentKept(run, Execution(run, moves).store.history, i, j);
  }

  lemma {:induction false} ConfirmedGrows(history: seq<Checkpoint>, i: nat, j: nat)
    requires Chained(history) && i <= j < |history|
    ensures history[i].confirmedSequence <= history[j].confirmedSequence
    decreases j - i
  {
    if i < j {
      ConfirmedGrows(history, i, j - 1);
      assert KeepsIntent(history[j - 1], history[j]);
    }
  }

  /** The durable cursor never goes back from one version to a later one. */
  lemma CursorNeverGoesBack(run: RunConfig, moves: seq<Move>, i: nat, j: nat)
    requires ValidRun(run) && ClockRuns(moves) && i <= j < |Execution(run, moves).store.history|
    ensures Execution(run, moves).store.history[i].confirmedSequence <= Execution(run,
      moves).store.history[j].confirmedSequence
  {
    Reachable(run, moves);
    ConfirmedGrows(Execution(run, moves).store.history, i, j);
  }

  /** A run journals at most one terminal event, as its last record, and an ended
      run's status is the outcome that event reports. */
  lemma TerminalEventIsLast(run: RunConfig, moves: seq<Move>)
    requires ValidRun(run) && ClockRuns(moves)
    ensures var store := Execution(run, moves).store;
            && (forall i :: 0 <= i < |store.journal| && store.journal[i].eventType.WorkflowEnded? ==>
                  i == |store.journal| - 1)
            && (store.head.Some? && store.head.value.status.Ended? ==>
                  && store.head.value.confirmedSequence == |store.journal| > 0
                  && store.journal[|store.journal| - 1].eventType == WorkflowEnded(store.head.value.status.outcome))
  {
    Reachable(run, moves);
    var store := Execution(run, moves).store;
    if store.head.Some? {
      assert TerminalLast(store.head.value, store.journal);
    }
  }

  /** No sequence is confirmed before some owner offered it to the sinks. */
  lemma ConfirmedWasOffered(run: RunConfig, moves: seq<Move>, sequence: int)
    requires ValidRun(run) && ClockRuns(moves)
    requires Execution(run, moves).store.head.Some?
    requires 1 <= sequence <= Execution(run, moves).store.head.value.confirmedSequence
    ensures sequence in Execution(run, moves).offered
  {
    Reachable(run, moves);
  }

  /** Each owner offers the sequences right after the cursor it began with, one by
      one and in order: only what was unconfirmed then can be offered again. */
  lemma OffersAreContiguous(run: RunConfig, moves: seq<Move>, index: nat)
    requires ValidRun(run) && ClockRuns(moves) && index < |Execution(run, moves).owners|
    ensures var owner := Execution(run, moves).owners[index];
            owner.offers == seq(|owner.offers|, i => owner.start + i + 1)
  {
    Reachable(run, moves);
    LocalOffers(run, Execution(run, moves).store, Execution(run, moves).owners[index]);
  }

  lemma LocalOffers(run: RunConfig, store: RunStore, owner: Owner)
    requires OwnerOK(run, store, owner)
    ensures owner.offers == seq(|owner.offers|, i => owner.start + i + 1)
  {
  }

  /** Of the versions the batch writers (and all others short of an ending) leave behind,
      a resume accepts exactly those whose batch, if one is under way, closes with a
      report of the first of its waits. */
  lemma VersionsAreResumable(run: RunConfig, moves: seq<Move>, version: nat)
    requires ValidRun(run) && ClockRuns(moves) && 1 <= version <= |Execution(run, moves).store.history|
    ensures var record := Execution(run, moves).store.history[version - 1];
            record.payload.pendingTerm.None? && !record.status.Ended? ==>
              (ValidInterruptProgress(run, record) <==>
               (record.payload.interruptProgress.Some? ==>
                  ReportsFirst(record.payload.pendingInterrupts, record.payload.interruptProgress.value.events)))
  {
    Reachable(run, moves);
  }

  /** The current owner's append is never refused as a conflict: it either extends
      the journal or finds its own record there. */
  lemma AppendNeverConflicts(run: RunConfig, moves: seq<Move>, index: nat, now: Time)
    requires ValidRun(run) && ClockRuns(moves) && index < |Execution(run, moves).owners| && now > 0
    requires Execution(run, moves).owners[index].control.Journaling?
    ensures var system := Execution(run, moves);
            var owner := system.owners[index];
            var entry := Entry(run, Stamp(run, owner.control.event, owner.sequence + 1, now));
            var fence := Fence(owner.checkpoint.ownerID, owner.checkpoint.claimSequence);
            Authorized(system.store, fence, now) && fence.ownerID != "" ==>
              Journaled(system.store, entry, fence, now).error.None?
  {
    hide *;
    var system := Execution(run, moves);
    ReachableOwner(run, moves, index);
    AppendAccepted(run, system.store, system.owners[index], now);
  }

  lemma ReachableOwner(run: RunConfig, moves: seq<Move>, index: nat)
    requires ValidRun(run) && ClockRuns(moves) && index < |Execution(run, moves).owners|
    ensures SoundStore(run, Execution(run, moves).store)
    ensures OwnerOK(run, Execution(run, moves).store, Execution(run, moves).owners[index])
  {
    Reachable(run, moves);
    hide SoundStore, OwnerOK;
  }

  lemma AppendAccepted(run: RunConfig, store: RunStore, owner: Owner, now: Time)
    requires ValidRun(run) && SoundStore(run, store) && OwnerOK(run, store, owner) && owner.control.Journaling?
    requires now > 0
    ensures var entry := Entry(run, Stamp(run, owner.control.event, owner.sequence + 1, now));
            var fence := Fence(owner.checkpoint.ownerID, owner.checkpoint.claimSequence);
            Authorized(store, fence, now) && fence.ownerID != "" ==> Journaled(store, entry, fence, now).error.None?
  {
    if owner.checkpoint.claimSequence == store.head.value.claimSequence {
      PendingFits(run, store, owner, now);
      assert store.head.value.claimSequence >= 1;
    }
    hide SoundStore, Current, Stamp, Entry, Appended;
  }

  lemma PendingFits(run: RunConfig, store: RunStore, owner: Owner, now: Time)
    requires ValidRun(run) && SoundStore(run, store) && OwnerOK(run, store, owner) && owner.control.Journaling?
    requires now > 0
    requires owner.checkpoint.claimSequence == store.head.value.claimSequence
    ensures Appended(store.journal, Entry(run, Stamp(run, owner.control.event, owner.sequence + 1, now))).error.None?
  {
    var event := owner.control.event;
    StampIsFixpoint(run, event, owner.sequence + 1, now, now);
    EntryIsGenuine(run, event);
    var found := Lookup(store.journal, KeyOf(Entry(run, event)));
    if found.Some? {
      var i :| 0 <= i < |store.journal| && store.journal[i] == found.value;
      assert i == store.head.value.confirmedSequence;
    }
  }
}
