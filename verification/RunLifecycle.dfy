/** The order of a run's lifecycle events, and where its interrupt batches come from, over
    every interleaving of its owners (workflow/workflow.go, workflow/runlog.go). */
module RunLifecycle {
  import opened Options
  import opened Runlog
  import opened CheckpointStore
  import opened StoreSafety
  import opened RunProtocol
  import opened RunInvariant
  import opened RunSafety
  import opened RunTheorems

  // The waits of an interrupt and the request it names apart from them.
  type Batches = set<(seq<PendingInterrupt>, InterruptRequest)>

  /** Every interruption was followed by the start of another attempt. */
  ghost predicate Awake(journal: seq<Record>) {
    forall i :: 0 <= i < |journal| && journal[i].eventType == WorkflowInterrupted ==> Reawakened(journal, i, |journal|)
  }

  ghost predicate Reawakened(journal: seq<Record>, from: nat, until: nat) {
    exists k :: from < k < until && k < |journal| && StartsAttempt(journal[k].eventType)
  }

  /** Between two interruptions another attempt was started. */
  ghost predicate Separated(journal: seq<Record>) {
    forall i, j :: 0 <= i < j < |journal| && journal[i].eventType == journal[j].eventType == WorkflowInterrupted ==>
      Reawakened(journal, i, j)
  }

  function BatchStart(progress: InterruptProgress): int {
    if progress.events == [] then 0 else progress.events[0].sequence - 1
  }

  ghost predicate AwakeBefore(journal: seq<Record>, progress: InterruptProgress) {
    0 <= BatchStart(progress) <= |journal| && Awake(journal[..BatchStart(progress)])
  }

  /** The batch was begun for these waits. */
  ghost predicate BegunFor(begun: Batches, waits: seq<PendingInterrupt>, events: seq<Event>) {
    exists first :: (waits, first) in begun && Closes(waits, first, events)
  }

  predicate Closes(waits: seq<PendingInterrupt>, first: InterruptRequest, events: seq<Event>) {
    |events| == |waits| + 1 && events[|waits|].summary == first.subject
  }

  ghost predicate Traced(begun: Batches, waits: seq<PendingInterrupt>, progress: Option<InterruptProgress>) {
    progress.Some? ==> BegunFor(begun, waits, progress.value.events)
  }

  /** The run's very first event is pending: that it started. */
  predicate PendingStart(record: Checkpoint) {
    && record.payload.pendingEvent.Some?
    && record.payload.pendingEvent.value.sequence == 1 && StartsRun(record.payload.pendingEvent.value.eventType)
  }

  /** That the run started was made durable. */
  ghost predicate StartedDurably(history: seq<Checkpoint>) {
    exists v :: 0 <= v < |history| && PendingStart(history[v])
  }

  predicate Natural(run: RunConfig) {
    run.controlOrigin != "external_retry" && run.controlOrigin != "external_jump"
  }

  ghost predicate LivelyRecord(run: RunConfig, begun: Batches, record: Checkpoint, journal: seq<Record>) {
    var payload := record.payload;
    && Traced(begun, payload.pendingInterrupts, payload.interruptProgress)
    && (record.status == Running && payload.pendingTerm.None? && payload.interruptProgress.Some? ==>
          AwakeBefore(journal, payload.interruptProgress.value))
    && (record.status == Interrupted ==> EndsAsBegun(run, begun, journal, payload.pendingInterrupts))
    && (Natural(run) && payload.pendingEvent.Some? && StartsRun(payload.pendingEvent.value.eventType) ==>
          payload.pendingEvent.value.sequence == 1)
  }

  /** The journal ends with a batch begun for these waits. */
  ghost predicate EndsAsBegun(run: RunConfig, begun: Batches, journal: seq<Record>, waits: seq<PendingInterrupt>) {
    exists events :: EndsWith(run, journal, waits, events) && BegunFor(begun, waits, events)
  }

  ghost predicate Lively(run: RunConfig, begun: Batches, store: RunStore) {
    && Separated(store.journal)
    && (store.head.Some? ==> LivelyRecord(run, begun, store.head.value, store.journal))
    && (forall v :: 0 <= v < |store.history| ==>
          Traced(begun, store.history[v].payload.pendingInterrupts, store.history[v].payload.interruptProgress))
    && (Natural(run) ==> forall i :: 0 < i < |store.journal| ==> !StartsRun(store.journal[i].eventType))
    && StartIsFirst(store)
  }

  /** The journal begins with the start of the run exactly if that was made durable. */
  ghost predicate StartIsFirst(store: RunStore) {
    if store.journal == [] then StartedDurably(store.history) ==> store.head.Some? && PendingStart(store.head.value)
    else StartedDurably(store.history) <==> StartsRun(store.journal[0].eventType)
  }

  /** What the current owner knows of the run's attempts where it stands. */
  ghost predicate Wakeful(run: RunConfig, begun: Batches, journal: seq<Record>, owner: Owner) {
    && Traced(begun, owner.interrupts, owner.progress)
    && match owner.control
       case Starting => journal == []
       case Loading => true
       case Resuming => journal != []
       case Ready => journal != [] && Awake(journal)
       case Journaling(event, purpose) =>
         && (purpose == Advance ==> Awake(journal) && RunningType(event.eventType))
         && (purpose == Begin ==> StartsAttempt(event.eventType))
       case Delivering(event, purpose) => (purpose == Observe || purpose == Advance || purpose == Begin ==>
         Awake(journal))
       case Confirming(event, purpose) => (purpose == Advance || purpose == Begin ==> Awake(journal))
       case Reconciling => true
       case ReplayingPage(_, _) => true
       case Interrupting => journal != [] && owner.progress.Some? && AwakeBefore(journal, owner.progress.value)
       case Stuck => journal != []
       case Suspended => journal != []
       case Releasing => true
       case Stopped => true
  }

  ghost predicate CurrentOwner(store: RunStore, owner: Owner) {
    store.head.Some? && owner.checkpoint.claimSequence == store.head.value.claimSequence && owner.control != Stopped
  }

  ghost predicate Orderly(run: RunConfig, begun: Batches, system: System) {
    && Lively(run, begun, system.store)
    && forall i :: 0 <= i < |system.owners| && CurrentOwner(system.store, system.owners[i]) ==>
         Wakeful(run, begun, system.store.journal, system.owners[i])
  }

  // ----- journals -----

  lemma AwakeMore(journal: seq<Record>, entry: Record)
    requires entry.eventType != WorkflowInterrupted && (Awake(journal) || StartsAttempt(entry.eventType))
    ensures Awake(journal + [entry])
  {
    var more := journal + [entry];
    forall i | 0 <= i < |more| && more[i].eventType == WorkflowInterrupted
      ensures Reawakened(more, i, |more|)
    {
      if StartsAttempt(entry.eventType) {
        assert more[|journal|] == entry;
      } else {
        var k :| i < k < |journal| && StartsAttempt(journal[k].eventType);
        assert more[k] == journal[k];
      }
    }
  }

  lemma SeparatedMore(journal: seq<Record>, entry: Record)
    requires Separated(journal) && (entry.eventType == WorkflowInterrupted ==> Awake(journal))
    ensures Separated(journal + [entry])
  {
    var more := journal + [entry];
    forall i, j | 0 <= i < j < |more| && more[i].eventType == more[j].eventType == WorkflowInterrupted
      ensures Reawakened(more, i, j)
    {
      assert more[i] == journal[i];
      if j < |journal| {
        assert Reawakened(journal, i, j);
      } else {
        assert Reawakened(journal, i, |journal|);
      }
      var k :| i < k < j && k < |journal| && StartsAttempt(journal[k].eventType);
      assert more[k] == journal[k];
    }
  }

  /** Reports of single interrupts do not put a run to sleep. */
  lemma AwakeAfterGuards(journal: seq<Record>, start: nat)
    requires start <= |journal| && Awake(journal[..start])
    requires forall i :: start <= i < |journal| ==> journal[i].eventType != WorkflowInterrupted
    ensures Awake(journal)
  {
    forall i | 0 <= i < |journal| && journal[i].eventType == WorkflowInterrupted
      ensures Reawakened(journal, i, |journal|)
    {
      assert Reawakened(journal[..start], i, start);
      var k :| i < k < start && StartsAttempt(journal[..start][k].eventType);
      assert journal[k] == journal[..start][k];
    }
  }

  // ----- the store -----

  ghost predicate KeepsStart(head: Checkpoint, record: Checkpoint, journal: seq<Record>) {
    && (journal == [] && PendingStart(head) ==> PendingStart(record))
    && (journal != [] && PendingStart(record) ==> PendingStart(head))
  }

  lemma StartedMore(history: seq<Checkpoint>, record: Checkpoint)
    ensures StartedDurably(history + [record]) <==> StartedDurably(history) || PendingStart(record)
  {
    var more := history + [record];
    assert more[|history|] == record;
    assert forall v :: 0 <= v < |history| ==> more[v] == history[v];
  }

  lemma HeadIsInHistory(store: RunStore)
    requires WellFormed(store) && store.head.Some? && PendingStart(store.head.value)
    ensures StartedDurably(store.history)
  {
    var last := store.history[|store.history| - 1];
    assert SameButLaterLease(last, store.head.value);
  }

  lemma PushKeepsLively(run: RunConfig, begun: Batches, store: RunStore, record: Checkpoint)
    requires WellFormed(store) && store.head.Some? && Lively(run, begun, store)
    requires LivelyRecord(run, begun, record, store.journal) && KeepsStart(store.head.value, record, store.journal)
    ensures Lively(run, begun, Push(store, record))
  {
    hide WellFormed, EndsAsBegun, AwakeBefore, BegunFor;
    var kept, after := record.(leaseDuration := 0), Push(store, record);
    StartedMore(store.history, kept);
    if PendingStart(store.head.value) {
      HeadIsInHistory(store);
    }
    forall v | 0 <= v < |after.history|
      ensures Traced(begun, after.history[v].payload.pendingInterrupts, after.history[v].payload.interruptProgress)
    {
      if v < |store.history| {
        assert after.history[v] == store.history[v];
      }
    }
    hide StartedDurably;
    if store.journal == [] {
      assert StartIsFirst(after);
    } else {
      assert StartIsFirst(after);
    }
  }

  /** A new entry keeps the order if it comes at the right time. */
  lemma GrowKeepsLively(run: RunConfig, begun: Batches, store: RunStore, entry: Record)
    requires store.head.Some? && store.head.value.status == Running && Lively(run, begun, store)
    requires entry.eventType == WorkflowInterrupted ==> Awake(store.journal)
    requires Natural(run) && StartsRun(entry.eventType) ==> store.journal == []
    requires store.journal == [] ==> (StartedDurably(store.history) <==> StartsRun(entry.eventType))
    ensures Lively(run, begun, store.(journal := store.journal + [entry]))
  {
    hide StartedDurably, Awake, Separated, EndsAsBegun, Traced;
    SeparatedMore(store.journal, entry);
    var more, payload := store.journal + [entry], store.head.value.payload;
    if payload.interruptProgress.Some? && payload.pendingTerm.None? {
      var start := BatchStart(payload.interruptProgress.value);
      assert more[..start] == store.journal[..start];
    }
    forall i | 0 < i < |more| && Natural(run)
      ensures !StartsRun(more[i].eventType)
    {
      if i < |store.journal| {
        assert more[i] == store.journal[i];
      }
    }
  }

  // ----- saving -----

  /** Saving an orderly record keeps the order, whether or not the store takes it. */
  lemma SaveKeepsLively(run: RunConfig, begun: Batches, store: RunStore, owner: Owner, record: Checkpoint, env: Env,
                        next: Control, fallback: Control)
    requires WellFormed(store) && store.head.Some? && Lively(run, begun, store)
    requires LivelyRecord(run, begun, record, store.journal) && KeepsStart(store.head.value, record, store.journal)
    requires Wakeful(run, begun, store.journal, owner.(control := next))
    requires Wakeful(run, begun, store.journal, owner.(control := fallback))
    ensures var moved := Save(store, owner, record, env, next, fallback);
            Lively(run, begun, moved.store) && Wakeful(run, begun, moved.store.journal, moved.owner)
  {
    hide Lively, WellFormed, LivelyRecord, AwakeBefore, Awake, Traced, StartsRun;
    SaveCases(store, owner, record, env, next, fallback);
    var moved := Save(store, owner, record, env, next, fallback);
    if moved != Moved(store, owner.(control := fallback)) {
      var head := moved.store.head.value;
      SameLively(run, begun, record, head, store.journal);
      PushKeepsLively(run, begun, store, head);
      SameWakeful(run, begun, store.journal, owner.(control := next), moved.owner);
    }
  }

  lemma SameLively(run: RunConfig, begun: Batches, left: Checkpoint, right: Checkpoint, journal: seq<Record>)
    requires left.payload == right.payload && left.status == right.status
    ensures LivelyRecord(run, begun, left, journal) <==> LivelyRecord(run, begun, right, journal)
    ensures PendingStart(left) <==> PendingStart(right)
  {
    hide Traced, AwakeBefore, EndsAsBegun;
  }

  lemma SameWakeful(run: RunConfig, begun: Batches, journal: seq<Record>, left: Owner, right: Owner)
    requires left.interrupts == right.interrupts && left.progress == right.progress && left.control == right.control
    ensures Wakeful(run, begun, journal, left) <==> Wakeful(run, begun, journal, right)
  {
    hide Traced, AwakeBefore, Awake;
  }

  // ----- one step of the current owner -----

  ghost predicate Living(run: RunConfig, begun: Batches, store: RunStore, owner: Owner, env: Env) {
    && Stepping(run, store, owner, env) && CurrentOwner(store, owner)
    && Lively(run, begun, store) && Wakeful(run, begun, store.journal, owner)
  }

  ghost predicate LivesOn(run: RunConfig, begun: Batches, moved: Moved) {
    Lively(run, begun, moved.store) && Wakeful(run, begun, moved.store.journal, moved.owner)
  }

  lemma EntryType(run: RunConfig, event: Event)
    ensures Entry(run, event).eventType == event.eventType
  {
  }

  /** The closing event of a batch is journaled only when the run is awake. */
  lemma ClosingComesAwake(run: RunConfig, head: Checkpoint, journal: seq<Record>, event: Event)
    requires Sound(run, head, journal) && head.status == Running && head.payload.pendingEvent == Some(event)
    requires head.confirmedSequence == |journal| && event.eventType == WorkflowInterrupted
    requires head.payload.pendingTerm.None? && head.payload.interruptProgress.Some? ==>
               AwakeBefore(journal, head.payload.interruptProgress.value)
    ensures Awake(journal)
  {
    InterruptIsPending(run, head, journal, event);
    DurableBatch(run, head, journal);
    var progress := head.payload.interruptProgress.value;
    var start := BatchStart(progress);
    hide Sound, Awake;
    BatchEventTypes(run, head.payload.pendingInterrupts, progress);
    forall i | start <= i < |journal|
      ensures journal[i].eventType != WorkflowInterrupted
    {
      EntryType(run, progress.events[i - start]);
      assert journal[progress.events[0].sequence - 1 + (i - start)] == Entry(run, progress.events[i - start]);
    }
    AwakeAfterGuards(journal, start);
  }

  lemma InterruptIsPending(run: RunConfig, head: Checkpoint, journal: seq<Record>, event: Event)
    requires Sound(run, head, journal) && head.status == Running && head.payload.pendingEvent == Some(event)
    requires event.eventType == WorkflowInterrupted
    ensures head.payload.pendingTerm.None? && head.payload.interruptProgress.Some?
  {
    hide BatchShaped, Stamped, Entry;
  }

  lemma BatchEventTypes(run: RunConfig, waits: seq<PendingInterrupt>, progress: InterruptProgress)
    requires BatchShaped(run, waits, progress.events) && 0 <= progress.next < |progress.events|
    ensures forall i :: 0 <= i < progress.next ==> progress.events[i].eventType == GuardInterrupted
  {
    hide InterruptIdentityMatches, RequestMatches;
  }

  /** What a pending event's append may count on. */
  lemma PendingIsOrderly(run: RunConfig, begun: Batches, store: RunStore, owner: Owner, env: Env, event: Event,
                         purpose: Purpose)
    requires Living(run, begun, store, owner, env) && owner.control == Journaling(event, purpose)
    ensures store.head.value.status == Running && Stamped(run, event)
    ensures 0 <= owner.sequence <= |store.journal| && event.sequence == owner.sequence + 1 && Local(owner)
    ensures owner.sequence == |store.journal| ==>
              && (event.eventType == WorkflowInterrupted ==> Awake(store.journal))
              && (Natural(run) && StartsRun(event.eventType) ==> store.journal == [])
              && (store.journal == [] ==> (StartedDurably(store.history) <==> StartsRun(event.eventType)))
    ensures !purpose.Replay? ==> owner.sequence == |store.journal|
    ensures purpose != Observe && purpose != Load
  {
    PendingIsUnderWay(run, store, owner, event, purpose);
    PendingIsStamped(run, store.head.value, store.journal, event);
    LocalAndBound(run, store, owner);
    NewUnlessReplayed(run, store, owner, event, purpose);
    hide OwnerOK, Sound, Stamped, Awake, AwakeBefore, StartedDurably, Traced, EndsAsBegun, Separated;
    if owner.sequence == |store.journal| {
      if event.eventType == WorkflowInterrupted {
        ClosingComesAwake(run, store.head.value, store.journal, event);
      }
      if PendingStart(store.head.value) {
        HeadIsInHistory(store);
      }
    }
  }

  lemma NewUnlessReplayed(run: RunConfig, store: RunStore, owner: Owner, event: Event, purpose: Purpose)
    requires OwnerOK(run, store, owner) && CurrentOwner(store, owner) && owner.control == Journaling(event, purpose)
    ensures !purpose.Replay? ==> owner.sequence == |store.journal|
    ensures purpose != Observe && purpose != Load
  {
    hide InStep;
  }

  lemma JournalLivesOn(run: RunConfig, begun: Batches, store: RunStore, owner: Owner, env: Env)
    requires Living(run, begun, store, owner, env) && owner.control.Journaling?
    ensures LivesOn(run, begun, Proceed(run, store, owner, env))
  {
    hide Lively, OwnerOK, SoundStore, Stamp, Emit, Entry, Stamped, Awake, Traced, AwakeBefore, StartedDurably;
    var event, purpose := owner.control.event, owner.control.purpose;
    PendingIsOrderly(run, begun, store, owner, env, event, purpose);
    assert Proceed(run, store, owner, env) == Emit(run, store, owner, event, purpose, env);
    hide Proceed;
    StampIsFixpoint(run, event, owner.sequence + 1, env.now, env.now);
    EmitCases(run, store, owner, event, purpose, env);
    EntryType(run, event);
    if owner.sequence == |store.journal| {
      GrowKeepsLively(run, begun, store, Entry(run, event));
      if event.eventType != WorkflowInterrupted && (Awake(store.journal) || StartsAttempt(event.eventType)) {
        AwakeMore(store.journal, Entry(run, event));
      }
    }
  }

  /** An event that is not saved ahead: what a node reports, or that the run was restored. */
  lemma ObservedLivesOn(run: RunConfig, begun: Batches, store: RunStore, owner: Owner, env: Env, event: Event,
                        purpose: Purpose)
    requires Living(run, begun, store, owner, env) && Fresh(event)
    requires (owner.control == Ready && purpose == Observe && RunningType(event.eventType))
          || (owner.control == Loading && purpose == Load && event.eventType == CheckpointLoaded)
    ensures LivesOn(run, begun, Emit(run, store, owner, event, purpose, env))
  {
    hide Lively, OwnerOK, SoundStore, Stamp, Emit, Entry, Stamped, Awake, Traced, AwakeBefore, StartedDurably;
    AtWorkFacts(run, begun, store, owner);
    var stamped := FreshStamp(run, event, owner.sequence + 1, env.now);
    EmitCases(run, store, owner, event, purpose, env);
    EntryType(run, stamped);
    GrowKeepsLively(run, begun, store, Entry(run, stamped));
    if Awake(store.journal) {
      AwakeMore(store.journal, Entry(run, stamped));
    }
  }

  predicate Working(control: Control) {
    control == Starting || control == Loading || control == Resuming || control == Ready
  }

  lemma AtWorkFacts(run: RunConfig, begun: Batches, store: RunStore, owner: Owner)
    requires SoundStore(run, store) && OwnerOK(run, store, owner) && CurrentOwner(store, owner)
    requires Lively(run, begun, store)
    requires Working(owner.control)
    ensures Local(owner) && owner.sequence == owner.cursor == |store.journal| && store.head.value.status == Running
    ensures owner.progress.None? && owner.interrupts == []
    ensures store.journal == [] ==> !PendingStart(store.head.value) && !StartedDurably(store.history)
  {
    hide BatchShaped, Stamped, Entry, Awake, AwakeBefore, Separated, EndsAsBegun, StartedDurably;
  }

  lemma DeliverLivesOn(run: RunConfig, begun: Batches, store: RunStore, owner: Owner, env: Env)
    requires Living(run, begun, store, owner, env) && owner.control.Delivering?
    ensures LivesOn(run, begun, Proceed(run, store, owner, env))
  {
    hide Lively, SoundStore, Awake, AwakeBefore;
    JournaledByNow(run, store, owner);
    var event, purpose := owner.control.event, owner.control.purpose;
    AdvancedTraced(begun, owner.interrupts, owner.progress, event, purpose);
    hide OwnerOK, Traced, Advanced;
    assert Proceed(run, store, owner, env) == Moved(store, Deliver(owner, event, purpose, env));
  }

  lemma JournaledByNow(run: RunConfig, store: RunStore, owner: Owner)
    requires OwnerOK(run, store, owner) && CurrentOwner(store, owner) && owner.control.Delivering?
    ensures store.journal != []
  {
    hide UnderWay, InStep, AtWork, Stamped, Entry;
  }

  lemma AdvancedTraced(begun: Batches, waits: seq<PendingInterrupt>, progress: Option<InterruptProgress>, event: Event,
                       purpose: Purpose)
    requires Traced(begun, waits, progress)
    ensures Traced(begun, waits, Advanced(progress, event, purpose))
    ensures progress.Some? <==> Advanced(progress, event, purpose).Some?
    ensures progress.Some? ==> Advanced(progress, event, purpose).value.events == progress.value.events
  {
    hide BegunFor;
  }

  // ----- steps that save -----

  lemma AttemptLivesOn(run: RunConfig, begun: Batches, store: RunStore, owner: Owner, env: Env, resumed: bool)
    requires Living(run, begun, store, owner, env) && owner.control == if resumed then Resuming else Starting
    ensures LivesOn(run, begun, BeginAttempt(run, store, owner, AttemptEvent(run, resumed), env))
  {
    hide WellFormed, Closes;
    hide Lively, OwnerOK, SoundStore, Stamp, Save, Stamped, Awake, AwakeBefore, StartedDurably, EndsAsBegun;
    AtWorkFacts(run, begun, store, owner);
    var event := AttemptEvent(run, resumed);
    var pending := FreshStamp(run, event, owner.sequence + 1, env.now);
    var record := SaveRecord(run, owner, Some(pending), None, ReplayStatusFor(event.eventType), env);
    WellFormedStore(run, store);
    SaveKeepsLively(run, begun, store, owner, record, env, Journaling(pending, Begin), Stopped);
  }

  lemma WellFormedStore(run: RunConfig, store: RunStore)
    requires SoundStore(run, store)
    ensures WellFormed(store)
  {
    hide WellFormed, Sound, GenuineJournal, Chained, Resumable;
  }

  lemma AdvanceLivesOn(run: RunConfig, begun: Batches, store: RunStore, owner: Owner, env: Env, event: Event)
    requires Living(run, begun, store, owner, env) && owner.control == Ready && Fresh(event)
    requires RunningType(event.eventType)
    ensures LivesOn(run, begun, Step(run, store, owner, BeginAdvance(event), env))
  {
    hide Lively, OwnerOK, SoundStore, Stamp, Save, Stamped, Awake, AwakeBefore, StartedDurably, EndsAsBegun;
    AtWorkFacts(run, begun, store, owner);
    var pending := AdvanceIsSave(run, store, owner, event, env);
    hide Step;
    var record := SaveRecord(run, owner, Some(pending), None, ReplayStatusFor(event.eventType), env);
    WellFormedStore(run, store);
    SaveKeepsLively(run, begun, store, owner, record, env, Journaling(pending, Advance), Ready);
  }

  lemma ConcludeLivesOn(run: RunConfig, begun: Batches, store: RunStore, owner: Owner, env: Env, outcome: Outcome,
                        event: Event)
    requires Living(run, begun, store, owner, env) && MayConclude(owner.control)
    requires Fresh(event) && event.eventType == WorkflowEnded(outcome)
    ensures LivesOn(run, begun, Step(run, store, owner, BeginConclude(outcome, event), env))
  {
    hide Lively, OwnerOK, SoundStore, Stamp, Save, Stamped, Awake, AwakeBefore, StartedDurably, EndsAsBegun;
    var pending := ConcludeIsSave(run, store, owner, outcome, event, env);
    hide Step;
    var record := SaveRecord(run, owner, Some(pending), Some(outcome), owner.replayStatus, env);
    WellFormedStore(run, store);
    SaveKeepsLively(run, begun, store, owner, record, env, Journaling(pending, Conclude(outcome)), Stopped);
  }

  lemma BeginInterruptsLivesOn(run: RunConfig, begun: Batches, store: RunStore, owner: Owner, env: Env,
                               waits: seq<PendingInterrupt>, first: InterruptRequest)
    requires Living(run, begun, store, owner, env) && owner.control == Ready && waits != [] && (waits, first) in begun
    ensures LivesOn(run, begun, Step(run, store, owner, BeginInterrupts(waits, first), env))
  {
    hide Lively, OwnerOK, SoundStore, Awake, BatchEvents, BatchShaped, AllStamped;
    AtWorkFacts(run, begun, store, owner);
    var events := BatchEvents(run, waits, first, owner.sequence, env.now);
    BatchEventsMatch(run, waits, first, owner.sequence, env.now);
    assert Closes(waits, first, events);
    assert BatchStart(InterruptProgress(events, 0)) == |store.journal|;
    assert store.journal[..|store.journal|] == store.journal;
  }

  /** What the owner of a delivered event knows besides. */
  lemma DeliveredFacts(run: RunConfig, begun: Batches, store: RunStore, owner: Owner, event: Event, purpose: Purpose)
    requires SoundStore(run, store) && OwnerOK(run, store, owner) && CurrentOwner(store, owner)
    requires Lively(run, begun, store)
    requires owner.control == Confirming(event, purpose)
    ensures purpose != Observe && purpose != Load && store.journal != []
    ensures purpose == Advance || purpose == Begin ==> owner.progress.None?
    ensures purpose == Batch ==> owner.progress.Some?
    ensures (purpose == Batch || purpose == Replay(None)) && owner.progress.Some? ==>
      AwakeBefore(store.journal, owner.progress.value)
  {
    HeadIsRunning(run, store, owner);
    UnderWayFacts(run, store, owner, event, purpose);
    hide SoundStore, OwnerOK, Sound, Awake, Separated, StartedDurably, EndsAsBegun, Traced;
    AdvancedBatchStart(store.head.value.payload.interruptProgress, event, purpose);
  }

  lemma AdvancedBatchStart(progress: Option<InterruptProgress>, event: Event, purpose: Purpose)
    ensures progress.Some? <==> Advanced(progress, event, purpose).Some?
    ensures progress.Some? ==> BatchStart(Advanced(progress, event, purpose).value) == BatchStart(progress.value)
  {
  }

  lemma ConfirmSavedLivesOn(run: RunConfig, begun: Batches, store: RunStore, owner: Owner, env: Env, event: Event,
                            purpose: Purpose, replayStatus: ReplayStatus, next: Control, fallback: Control)
    requires Living(run, begun, store, owner, env) && owner.control == Confirming(event, purpose)
    requires || (purpose == Advance && next == Ready && fallback == Ready)
      || (purpose == Begin && next == Ready && fallback == Stopped)
             || (purpose == Batch && next == Interrupting && fallback == Stuck)
             || (purpose == Replay(None) && next == Reconciling && fallback == Stopped)
    ensures LivesOn(run, begun,
      Save(store, owner, SaveRecord(run, owner, None, None, replayStatus, env), env, next, fallback))
  {
    hide Lively, OwnerOK, SoundStore, Save, Awake, AwakeBefore, StartedDurably, EndsAsBegun, Traced;
    DeliveredFacts(run, begun, store, owner, event, purpose);
    WellFormedStore(run, store);
    SaveKeepsLively(run, begun, store, owner, SaveRecord(run, owner, None, None, replayStatus, env), env, next,
                    fallback);
  }

  lemma ConfirmLivesOn(run: RunConfig, begun: Batches, store: RunStore, owner: Owner, env: Env)
    requires Living(run, begun, store, owner, env) && owner.control.Confirming?
    ensures LivesOn(run, begun, Proceed(run, store, owner, env))
  {
    hide Living, Lively, Save, SaveRecord, ClosingRecord, Wakeful;
    assert Proceed(run, store, owner, env)
      == Confirm(run, store, owner, owner.control.event, owner.control.purpose, env);
    hide Proceed;
    var event, purpose := owner.control.event, owner.control.purpose;
    PurposeOf(run, begun, store, owner, env, event, purpose);
    match purpose
    case Advance => RunningLivesOn(run, begun, store, owner, env, event, purpose, Ready);
    case Begin => RunningLivesOn(run, begun, store, owner, env, event, purpose, Stopped);
    case Batch => ConfirmSavedLivesOn(run, begun, store, owner, env, event, purpose, owner.replayStatus,
      Interrupting, Stuck);
    case Conclude(outcome) => EndLivesOn(run, begun, store, owner, env, event, outcome);
    case Replay(term) =>
      if term.Some? {
        EndLivesOn(run, begun, store, owner, env, event, term.value);
      } else {
        ConfirmSavedLivesOn(run, begun, store, owner, env, event, purpose, owner.replayStatus, Reconciling, Stopped);
      }
  }

  lemma PurposeOf(run: RunConfig, begun: Batches, store: RunStore, owner: Owner, env: Env, event: Event,
                  purpose: Purpose)
    requires Living(run, begun, store, owner, env) && owner.control == Confirming(event, purpose)
    ensures purpose != Observe && purpose != Load
  {
    hide Lively, OwnerOK, SoundStore, Wakeful;
    DeliveredFacts(run, begun, store, owner, event, purpose);
  }

  lemma RunningLivesOn(run: RunConfig, begun: Batches, store: RunStore, owner: Owner, env: Env, event: Event,
                       purpose: Purpose, fallback: Control)
    requires Living(run, begun, store, owner, env) && owner.control == Confirming(event, purpose)
    requires (purpose == Advance && fallback == Ready) || (purpose == Begin && fallback == Stopped)
    ensures LivesOn(run, begun, ConfirmAdvance(run, store, owner, event, fallback, env))
  {
    hide Living, Lively, Save, SaveRecord, Wakeful;
    var status := ReplayStatusFor(event.eventType);
    ConfirmSavedLivesOn(run, begun, store, owner, env, event, purpose, status, Ready, fallback);
    var saved := Save(store, owner, SaveRecord(run, owner, None, None, status, env), env, Ready, fallback);
    SameWakeful(run, begun, saved.store.journal, saved.owner, saved.owner.(replayStatus := status));
  }

  lemma EndLivesOn(run: RunConfig, begun: Batches, store: RunStore, owner: Owner, env: Env, event: Event,
                   outcome: Outcome)
    requires Living(run, begun, store, owner, env)
    requires owner.control == Confirming(event, Conclude(outcome))
      || owner.control == Confirming(event, Replay(Some(outcome)))
    ensures LivesOn(run, begun,
      Save(store, owner, ClosingRecord(owner, Ended(outcome), owner.progress, env), env, Stopped, Stopped))
  {
    hide Lively, OwnerOK, SoundStore, Save, Awake, AwakeBefore, StartedDurably, EndsAsBegun, Traced;
    DeliveredFacts(run, begun, store, owner, event, owner.control.purpose);
    WellFormedStore(run, store);
    SaveKeepsLively(run, begun, store, owner, ClosingRecord(owner, Ended(outcome), owner.progress, env), env, Stopped,
                    Stopped);
  }

  // ----- recovering, interrupting, releasing -----

  lemma ReconcileLivesOn(run: RunConfig, begun: Batches, store: RunStore, owner: Owner, env: Env)
    requires Living(run, begun, store, owner, env) && owner.control == Reconciling
    ensures LivesOn(run, begun, Proceed(run, store, owner, env))
  {
    hide Emit, Deliver, Confirm, ReplayPage, InterruptNext, BeginAttempt, Save, Lively, OwnerOK, SoundStore, Awake;
    hide AwakeBefore, Traced, NextPage;
    assert Proceed(run, store, owner, env) == Moved(store, ListPage(run, store, owner, env));
    if owner.progress.Some? {
      BatchToGoOn(run, begun, store, owner);
    }
  }

  /** A recovered batch has been begun, and while the run was awake. */
  lemma BatchToGoOn(run: RunConfig, begun: Batches, store: RunStore, owner: Owner)
    requires SoundStore(run, store) && OwnerOK(run, store, owner) && CurrentOwner(store, owner)
    requires Lively(run, begun, store)
    requires owner.control == Reconciling && owner.progress.Some?
    ensures store.journal != [] && AwakeBefore(store.journal, owner.progress.value)
  {
    hide Stamped, Entry, Awake, Separated, StartedDurably, EndsAsBegun, Traced, InterruptIdentityMatches;
    hide RequestMatches;
  }

  lemma ReplayPageLivesOn(run: RunConfig, begun: Batches, store: RunStore, owner: Owner, env: Env)
    requires Living(run, begun, store, owner, env) && owner.control.ReplayingPage?
    ensures LivesOn(run, begun, Proceed(run, store, owner, env))
  {
    hide Lively, OwnerOK, SoundStore, Save, Awake, AwakeBefore, StartedDurably, EndsAsBegun, Traced, ValidJournalRecord;
    var page, full := owner.control.page, owner.control.full;
    NothingPends(run, store, owner);
    if page == [] {
      WellFormedStore(run, store);
      SaveKeepsLively(run, begun, store, owner, SaveRecord(run, owner, None, None, owner.replayStatus, env), env,
                      if full then Reconciling else Recovered(owner), Stopped);
    }
  }

  lemma NothingPends(run: RunConfig, store: RunStore, owner: Owner)
    requires SoundStore(run, store) && OwnerOK(run, store, owner) && CurrentOwner(store, owner)
    requires owner.control.ReplayingPage?
    ensures owner.progress.None? && !PendingStart(store.head.value)
  {
    ReplayingFacts(run, store, owner, owner.control.page, owner.control.full);
    hide SoundStore;
  }

  lemma InterruptLivesOn(run: RunConfig, begun: Batches, store: RunStore, owner: Owner, env: Env)
    requires Living(run, begun, store, owner, env) && owner.control == Interrupting
    ensures LivesOn(run, begun, Proceed(run, store, owner, env))
  {
    hide Lively, OwnerOK, SoundStore, Save, Awake, AwakeBefore, StartedDurably, EndsAsBegun, Traced, Stamped;
    hide BatchShaped, Entry;
    var progress := owner.progress.value;
    InterruptingFacts(run, store, owner);
    WellFormedStore(run, store);
    if 0 <= progress.next < |progress.events| {
      var event := progress.events[progress.next];
      InterruptIsNoStart(run, owner, store.journal, event);
      SaveKeepsLively(run, begun, store, owner, SaveRecord(run, owner, Some(event), None, owner.replayStatus, env), env,
                      Journaling(event, Batch), Stuck);
    } else {
      InterruptedAsBegun(run, begun, store, owner);
      var cleared := owner.(progress := None);
      var saved := Save(store, cleared, ClosingRecord(owner, Interrupted, None, env), env, Suspended, Stuck);
      DoneLivesOn(run, begun, store, owner, cleared, saved, env);
    }
  }

  lemma DoneLivesOn(run: RunConfig, begun: Batches, store: RunStore, owner: Owner, cleared: Owner, saved: Moved,
                    env: Env)
    requires WellFormed(store) && store.head.Some? && Lively(run, begun, store)
    requires store.journal != [] && Traced(begun, owner.interrupts, owner.progress)
    requires cleared == owner.(progress := None)
    requires EndsAsBegun(run, begun, store.journal, owner.interrupts)
    requires saved == Save(store, cleared, ClosingRecord(owner, Interrupted, None, env), env, Suspended, Stuck)
    ensures LivesOn(run, begun, saved)
    ensures saved.owner.control != Suspended ==>
      LivesOn(run, begun, saved.(owner := saved.owner.(progress := owner.progress)))
  {
    hide Lively, WellFormed, Awake, AwakeBefore, EndsAsBegun, BegunFor;
    SaveKeepsLively(run, begun, store, cleared, ClosingRecord(owner, Interrupted, None, env), env, Suspended, Stuck);
  }

  lemma InterruptIsNoStart(run: RunConfig, owner: Owner, journal: seq<Record>, event: Event)
    requires BatchUnderWay(run, owner, journal) && event in owner.progress.value.events
    ensures InterruptType(event.eventType) && !StartsRun(event.eventType)
  {
    hide InterruptIdentityMatches, RequestMatches, JournaledSoFar;
  }

  lemma InterruptedAsBegun(run: RunConfig, begun: Batches, store: RunStore, owner: Owner)
    requires BatchUnderWay(run, owner, store.journal) && owner.cursor == |store.journal|
    requires owner.progress.value.next >= |owner.progress.value.events|
    requires Traced(begun, owner.interrupts, owner.progress)
    ensures EndsAsBegun(run, begun, store.journal, owner.interrupts)
  {
    hide BegunFor, EndsWith;
    BatchIsWhole(run, owner, store.journal);
  }

  lemma ReleaseLivesOn(run: RunConfig, begun: Batches, store: RunStore, owner: Owner, env: Env)
    requires Living(run, begun, store, owner, env) && owner.control == Releasing
    ensures LivesOn(run, begun, Proceed(run, store, owner, env))
  {
    hide Lively, OwnerOK, SoundStore, Save, Awake, AwakeBefore, StartedDurably, EndsAsBegun, Traced;
    HeadIsRunning(run, store, owner);
    WellFormedStore(run, store);
    HeadIsLively(run, begun, store);
    SaveKeepsLively(run, begun, store, owner, ReleaseRecord(owner, env), env, Stopped, Stopped);
  }

  lemma HeadIsLively(run: RunConfig, begun: Batches, store: RunStore)
    requires Lively(run, begun, store) && store.head.Some?
    ensures LivelyRecord(run, begun, store.head.value, store.journal)
  {
    hide LivelyRecord, StartIsFirst, Separated;
  }

  lemma RenewLivesOn(run: RunConfig, begun: Batches, store: RunStore, owner: Owner, env: Env)
    requires Living(run, begun, store, owner, env)
    ensures LivesOn(run, begun, Step(run, store, owner, Renew, env))
  {
    hide OwnerOK, SoundStore, Wakeful, Renewed, Separated, Traced, StartedDurably;
    var lease := Lease(run.identity.runID, owner.checkpoint.ownerID, owner.checkpoint.claimSequence, env.now
      + LeaseOf(run), run.leaseDuration);
    RenewalOnlyMovesTheLease(store, lease, env.now);
    SameLively(run, begun, store.head.value, Renewed(store, lease, env.now).store.head.value, store.journal);
    hide LivelyRecord;
  }

  // ----- every step -----

  lemma ProceedLivesOn(run: RunConfig, begun: Batches, store: RunStore, owner: Owner, env: Env)
    requires Living(run, begun, store, owner, env)
    ensures LivesOn(run, begun, Proceed(run, store, owner, env))
  {
    hide LivesOn, Emit, Deliver, Confirm, ReplayPage, InterruptNext, BeginAttempt, Save, ListPage;
    match owner.control
    case Starting => AttemptLivesOn(run, begun, store, owner, env, false);
    case Loading => ObservedLivesOn(run, begun, store, owner, env, LOADED_EVENT, Load);
    case Resuming => AttemptLivesOn(run, begun, store, owner, env, true);
    case Journaling(_, _) => JournalLivesOn(run, begun, store, owner, env);
    case Delivering(_, _) => DeliverLivesOn(run, begun, store, owner, env);
    case Confirming(_, _) => ConfirmLivesOn(run, begun, store, owner, env);
    case Reconciling => ReconcileLivesOn(run, begun, store, owner, env);
    case ReplayingPage(_, _) => ReplayPageLivesOn(run, begun, store, owner, env);
    case Interrupting => InterruptLivesOn(run, begun, store, owner, env);
    case Releasing => ReleaseLivesOn(run, begun, store, owner, env);
    case _ => IdleLivesOn(run, begun, store, owner, env);
  }

  lemma IdleLivesOn(run: RunConfig, begun: Batches, store: RunStore, owner: Owner, env: Env)
    requires Living(run, begun, store, owner, env)
    ensures LivesOn(run, begun, Moved(store, owner)) && LivesOn(run, begun, Moved(store, owner.(control := Stopped)))
  {
    hide Lively, OwnerOK, SoundStore, Awake, AwakeBefore, Traced;
  }

  lemma StepLivesOn(run: RunConfig, begun: Batches, store: RunStore, owner: Owner, action: Action, env: Env)
    requires Living(run, begun, store, owner, env)
    requires action.BeginInterrupts? ==> (action.waits, action.first) in begun
    ensures LivesOn(run, begun, Step(run, store, owner, action, env))
  {
    hide Living, LivesOn, Save, SaveRecord, Emit, Proceed, Renewed;
    IdleLivesOn(run, begun, store, owner, env);
    match action
    case BeginAdvance(event) =>
      if owner.control == Ready && Fresh(event) && RunningType(event.eventType) {
        AdvanceLivesOn(run, begun, store, owner, env, event);
      }
    case EmitObserved(event) =>
      if owner.control == Ready && Fresh(event) && RunningType(event.eventType) {
        ObservedLivesOn(run, begun, store, owner, env, event, Observe);
      }
    case BeginConclude(outcome, event) =>
      if MayConclude(owner.control) && Fresh(event) && event.eventType == WorkflowEnded(outcome) {
        ConcludeLivesOn(run, begun, store, owner, env, outcome, event);
      }
    case BeginInterrupts(waits, first) =>
      if owner.control == Ready && waits != [] {
        BeginInterruptsLivesOn(run, begun, store, owner, env, waits, first);
      }
    case Continue => ProceedLivesOn(run, begun, store, owner, env);
    case Renew => RenewLivesOn(run, begun, store, owner, env);
    case Crash =>
  }

  // ----- the whole system -----

  /** The batches the owners began. */
  function BatchesOf(moves: seq<Move>): Batches {
    set i | 0 <= i < |moves| && moves[i].what.Act? && moves[i].what.action.BeginInterrupts? ::
      (moves[i].what.action.waits, moves[i].what.action.first)
  }

  lemma MoreBatches(run: RunConfig, begun: Batches, more: Batches, system: System)
    requires begun <= more && Orderly(run, begun, system)
    ensures Orderly(run, more, system)
  {
    hide Awake, AwakeBefore, Separated, StartIsFirst, CurrentOwner, EndsWith, Closes;
    if system.store.head.Some? && system.store.head.value.status == Interrupted {
      var waits := system.store.head.value.payload.pendingInterrupts;
      var events :| EndsWith(run, system.store.journal, waits, events) && BegunFor(begun, waits, events);
      assert BegunFor(more, waits, events);
    }
  }

  lemma ActKeepsOrder(run: RunConfig, begun: Batches, system: System, index: nat, action: Action, env: Env)
    requires ValidRun(run) && env.now > 0 && Invariant(run, system) && Orderly(run, begun, system)
    requires action.BeginInterrupts? ==> (action.waits, action.first) in begun
    ensures Orderly(run, begun, Next(run, system, Move(Act(index, action), env)))
  {
    hide Lively, Wakeful, Step, SoundStore, OwnerOK;
    if index < |system.owners| && system.owners[index].control != Stopped {
      var owner := system.owners[index];
      var moved := Step(run, system.store, owner, action, env);
      StepKeeps(run, system.store, owner, action, env);
      if CurrentOwner(system.store, owner) {
        StepLivesOn(run, begun, system.store, owner, action, env);
      }
      MovedKeepsOrder(run, begun, system, index, moved);
    }
  }

  lemma MovedKeepsOrder(run: RunConfig, begun: Batches, system: System, index: nat, moved: Moved)
    requires Invariant(run, system) && Orderly(run, begun, system) && index < |system.owners|
    requires StepOK(run, system.store, system.owners[index], moved)
    requires CurrentOwner(system.store, system.owners[index]) ==> LivesOn(run, begun, moved)
    requires system.owners[index].control != Stopped
    ensures Orderly(run, begun, AfterMove(system, index, moved))
  {
    hide Lively, Wakeful, SoundStore, OwnerOK;
  }

  lemma StartKeepsOrder(run: RunConfig, begun: Batches, system: System, ownerID: string, env: Env)
    requires ValidRun(run) && Invariant(run, system) && Orderly(run, begun, system)
    ensures Orderly(run, begun, Next(run, system, Move(Start(ownerID), env)))
  {
    var record := FirstRecord(run, ownerID, env);
    var written := Attempt(system.store, env, Created(system.store, record, env.now));
    if written.error.None? && ownerID != "" {
      FirstIsLively(run, begun, record, written.store);
    }
    hide SoundStore, OwnerOK, Lively, Wakeful;
  }

  lemma FirstIsLively(run: RunConfig, begun: Batches, record: Checkpoint, store: RunStore)
    requires record.status == Running && record.payload.pendingEvent.None? && record.payload.interruptProgress.None?
    requires store.journal == [] && store.head.Some? && store.head.value.payload == record.payload
    requires store.head.value.status == Running
    requires store.history == [store.head.value]
    ensures Lively(run, begun, store) && Wakeful(run, begun, [], NewOwner(record))
  {
  }

  lemma ResumeKeepsOrder(run: RunConfig, begun: Batches, system: System, move: Move)
    requires ValidRun(run) && move.env.now > 0 && Invariant(run, system) && Orderly(run, begun, system)
    requires move.what.Resume?
    ensures Orderly(run, begun, Next(run, system, move))
  {
    hide Lively, Wakeful, SoundStore, OwnerOK, Claimed, ResolutionsFit, ValidInterruptProgress, ClaimRecord, Restored;
    var version := move.what.version;
    if 1 <= version <= |system.store.history| && Next(run, system, move) != system {
      var loaded := system.store.history[version - 1];
      var answers := if loaded.status == Interrupted then Some(move.what.resolved) else None;
      var candidate := ClaimRecord(run, loaded, move.what.ownerID, answers, move.env);
      ResumeIsTakeOver(run, system, version, move.what.ownerID, move.what.resolutions, move.what.resolved, move.env);
      TakeOverKeepsOrder(run, begun, system, loaded, candidate, version, move.what.ownerID, answers, move.env);
    }
  }

  lemma TakeOverKeepsOrder(run: RunConfig, begun: Batches, system: System, loaded: Checkpoint, candidate: Checkpoint,
                           version: int, ownerID: string, answers: Option<seq<ResolvedInterrupt>>, env: Env)
    requires ValidRun(run) && Invariant(run, system) && Orderly(run, begun, system)
    requires 1 <= version <= |system.store.history| && loaded == system.store.history[version - 1]
    requires !Terminal(loaded.status) && ValidInterruptProgress(run, loaded)
    requires candidate == ClaimRecord(run, loaded, ownerID, answers, env)
    requires answers.Some? == (loaded.status == Interrupted)
    ensures Orderly(run, begun, TakeOver(run, system, candidate, version, env))
  {
    hide Lively, Wakeful, SoundStore, OwnerOK, Restored;
    var written := Claimed(system.store, candidate, version, env.now);
    if !env.fails && written.error.None? {
      ClaimSequenceIs(run, loaded, ownerID, answers, env);
      ClaimedKeeps(run, system, loaded, candidate, version, env);
      hide Claimed, ClaimRecord;
      WellFormedStore(run, system.store);
      HeadIsLively(run, begun, system.store);
      ClaimIsLively(run, begun, system.store.head.value, loaded, candidate, ownerID, answers, env,
                    system.store.journal);
      var head := written.store.head.value;
      SameLively(run, begun, candidate, head, system.store.journal);
      SameStart(system.store.head.value, candidate, head, system.store.journal);
      PushKeepsLively(run, begun, system.store, head);
      RestoredIsWakeful(run, begun, candidate.(version := version + 1), system.store.journal, env);
      Superseded(run, system, candidate);
      hide LivelyRecord;
    }
  }

  lemma ClaimSequenceIs(run: RunConfig, loaded: Checkpoint, ownerID: string, answers: Option<seq<ResolvedInterrupt>>,
                        env: Env)
    ensures ClaimRecord(run, loaded, ownerID, answers, env).claimSequence == loaded.claimSequence + 1
  {
  }

  lemma SameStart(head: Checkpoint, candidate: Checkpoint, stored: Checkpoint, journal: seq<Record>)
    requires candidate.payload.pendingEvent == head.payload.pendingEvent && stored.payload == candidate.payload
    ensures KeepsStart(head, stored, journal)
  {
  }

  lemma ClaimIsLively(run: RunConfig, begun: Batches, head: Checkpoint, loaded: Checkpoint, candidate: Checkpoint,
                      ownerID: string, answers: Option<seq<ResolvedInterrupt>>, env: Env, journal: seq<Record>)
    requires LivelyRecord(run, begun, head, journal) && loaded == head.(leaseExpiresAt := loaded.leaseExpiresAt)
    requires !Terminal(loaded.status) && ValidInterruptProgress(run, loaded)
    requires candidate == ClaimRecord(run, loaded, ownerID, answers, env)
    requires answers.Some? == (loaded.status == Interrupted)
    ensures LivelyRecord(run, begun, candidate, journal) && candidate.payload.pendingEvent == head.payload.pendingEvent
    ensures candidate.payload.interruptProgress == head.payload.interruptProgress
    ensures Traced(begun, candidate.payload.pendingInterrupts, candidate.payload.interruptProgress)
  {
    hide AwakeBefore, BegunFor, EndsAsBegun, BatchShaped;
  }

  lemma RestoredIsWakeful(run: RunConfig, begun: Batches, claimed: Checkpoint, journal: seq<Record>, env: Env)
    requires Traced(begun, claimed.payload.pendingInterrupts, claimed.payload.interruptProgress)
    ensures Wakeful(run, begun, journal, Restored(run, claimed, env))
    ensures Restored(run, claimed, env).checkpoint == claimed
  {
    hide BegunFor, Stamp;
  }

  /** A claim supersedes all earlier owners. */
  lemma Superseded(run: RunConfig, system: System, candidate: Checkpoint)
    requires Invariant(run, system) && system.store.head.Some?
    requires candidate.claimSequence == system.store.head.value.claimSequence + 1
    ensures forall i :: 0 <= i < |system.owners| ==> system.owners[i].checkpoint.claimSequence < candidate.claimSequence
  {
    hide SoundStore, Local, Current;
  }

  lemma NextKeepsOrder(run: RunConfig, begun: Batches, system: System, move: Move)
    requires ValidRun(run) && move.env.now > 0 && Invariant(run, system) && Orderly(run, begun, system)
    requires move.what.Act? && move.what.action.BeginInterrupts? ==>
      (move.what.action.waits, move.what.action.first) in begun
    ensures Orderly(run, begun, Next(run, system, move))
  {
    hide Next, Invariant, Orderly;
    match move.what
    case Start(ownerID) => StartKeepsOrder(run, begun, system, ownerID, move.env);
    case Resume(_, _, _, _) => ResumeKeepsOrder(run, begun, system, move);
    case Act(index, action) => ActKeepsOrder(run, begun, system, index, action, move.env);
  }

  lemma {:induction false} ReachableIsOrderly(run: RunConfig, moves: seq<Move>)
    requires ValidRun(run) && ClockRuns(moves)
    ensures Orderly(run, BatchesOf(moves), Execution(run, moves))
  {
    hide Next, Invariant, Lively, Wakeful;
    if moves == [] {
      NothingIsOrderly(run, BatchesOf(moves));
    } else {
      hide Orderly;
      var last := |moves| - 1;
      var before := moves[..last];
      ReachableIsOrderly(run, before);
      Reachable(run, before);
      MoreBatches(run, BatchesOf(before), BatchesOf(moves), Execution(run, before));
      NextKeepsOrder(run, BatchesOf(moves), Execution(run, before), moves[last]);
    }
  }

  lemma NothingIsOrderly(run: RunConfig, begun: Batches)
    ensures Orderly(run, begun, NEW_SYSTEM)
  {
  }

  // ----- what holds of every run -----

  /** Of the versions written while a batch is under way a resume accepts all if the
      interrupt the batch was begun with names the first of its waits, and none otherwise. */
  lemma BatchIsResumableIff(run: RunConfig, moves: seq<Move>, version: nat) returns (first: InterruptRequest)
    requires ValidRun(run) && ClockRuns(moves) && 1 <= version <= |Execution(run, moves).store.history|
    requires var record := Execution(run, moves).store.history[version - 1];
             record.payload.pendingTerm.None? && !record.status.Ended? && record.payload.interruptProgress.Some?
    ensures var record := Execution(run, moves).store.history[version - 1];
            && record.payload.pendingInterrupts != [] && (record.payload.pendingInterrupts, first) in BatchesOf(moves)
            && (ValidInterruptProgress(run, record) <==>
                  first.subject == record.payload.pendingInterrupts[0].request.subject)
  {
    hide Execution, BatchesOf;
    Reachable(run, moves);
    ReachableIsOrderly(run, moves);
    first := VersionWasBegun(run, BatchesOf(moves), Execution(run, moves), version);
  }

  lemma VersionWasBegun(run: RunConfig, begun: Batches, system: System, version: nat) returns (first: InterruptRequest)
    requires Invariant(run, system) && Orderly(run, begun, system) && 1 <= version <= |system.store.history|
    requires var record := system.store.history[version - 1];
             record.payload.pendingTerm.None? && !record.status.Ended? && record.payload.interruptProgress.Some?
    ensures var record := system.store.history[version - 1];
            && record.payload.pendingInterrupts != [] && (record.payload.pendingInterrupts, first) in begun
            && (ValidInterruptProgress(run, record) <==>
                  first.subject == record.payload.pendingInterrupts[0].request.subject)
  {
    hide OwnerOK, Sound, GenuineJournal, Chained, Wakeful, LivelyRecord, StartIsFirst, Separated;
    var payload := system.store.history[version - 1].payload;
    assert Traced(begun, payload.pendingInterrupts, payload.interruptProgress);
    first :| (payload.pendingInterrupts, first) in begun
      && Closes(payload.pendingInterrupts, first, payload.interruptProgress.value.events);
    assert Resumable(run, system.store.history[version - 1]);
    hide InterruptIdentityMatches, RequestMatches;
  }

  /** A run becomes interrupted only with its whole batch journaled, each event once and in
      order at the journal's end, for exactly the waits the batch was begun with. */
  lemma InterruptedAfterWholeBatch(run: RunConfig,
                                   moves: seq<Move>) returns (events: seq<Event>, first: InterruptRequest)
    requires ValidRun(run) && ClockRuns(moves)
    requires Execution(run, moves).store.head.Some? && Execution(run, moves).store.head.value.status == Interrupted
    ensures var store := Execution(run, moves).store;
            var waits := store.head.value.payload.pendingInterrupts;
            && BatchShaped(run, waits, events) && |events| <= |store.journal| == store.head.value.confirmedSequence
            && (forall i :: 0 <= i < |events| ==>
                  store.journal[|store.journal| - |events| + i] == Entry(run, events[i]))
            && (waits, first) in BatchesOf(moves) && events[|waits|].summary == first.subject
  {
    hide Execution, BatchesOf;
    Reachable(run, moves);
    ReachableIsOrderly(run, moves);
    events, first := InterruptionWasBegun(run, BatchesOf(moves), Execution(run, moves).store);
  }

  lemma ConfirmedWhole(run: RunConfig, store: RunStore)
    requires SoundStore(run, store) && store.head.Some? && store.head.value.status == Interrupted
    ensures store.head.value.confirmedSequence == |store.journal|
  {
    hide EndsWithBatch, WellFormed, GenuineJournal, Chained;
  }

  lemma InterruptionWasBegun(run: RunConfig, begun: Batches,
                             store: RunStore) returns (events: seq<Event>, first: InterruptRequest)
    requires SoundStore(run, store) && Lively(run, begun, store) && store.head.Some?
    requires store.head.value.status == Interrupted
    ensures var waits := store.head.value.payload.pendingInterrupts;
            && BatchShaped(run, waits, events) && |events| <= |store.journal| == store.head.value.confirmedSequence
            && (forall i :: 0 <= i < |events| ==>
                  store.journal[|store.journal| - |events| + i] == Entry(run, events[i]))
            && (waits, first) in begun && |events| == |waits| + 1 && events[|waits|].summary == first.subject
  {
    hide Lively, Entry, InterruptIdentityMatches, RequestMatches, Sound, WellFormed, GenuineJournal, Resumable;
    hide Chained, Traced, AwakeBefore;
    HeadIsLively(run, begun, store);
    ConfirmedWhole(run, store);
    var waits := store.head.value.payload.pendingInterrupts;
    assert EndsAsBegun(run, begun, store.journal, waits);
    events :| EndsWith(run, store.journal, waits, events) && BegunFor(begun, waits, events);
    first :| (waits, first) in begun && Closes(waits, first, events);
  }

  /** A journal begins with the start of its run exactly if that was made durable; a run
      that was not retried or jumped starts at most once; and between two interruptions
      an attempt is started. */
  lemma AttemptsAreInOrder(run: RunConfig, moves: seq<Move>)
    requires ValidRun(run) && ClockRuns(moves)
    ensures var store := Execution(run, moves).store;
            && Separated(store.journal) && StartIsFirst(store)
            && (Natural(run) ==> forall i :: 0 < i < |store.journal| ==> !StartsRun(store.journal[i].eventType))
  {
    hide Execution, BatchesOf, LivelyRecord, Separated, StartIsFirst, Wakeful;
    ReachableIsOrderly(run, moves);
  }
}
