/** Encoding the scheduler state into a checkpoint payload and restoring it
    (workflow/workflow.go and the *_checkpoint.go files beside it). */
module Codec {
  import opened Options
  import opened Topology
  import opened RunState
  import opened Joins
  import opened Conservation
  import opened Scheduling
  import opened SchedulingSafety
  import opened RoutingSafety
  import opened SchedulingLaws

  // ----- the payload -----

  // An error is kept as its text; "" is no error.
  datatype EncodedRecord = EncodedRecord(
    activation: Activation,
    phase: Phase,
    attempt: nat,
    version: nat,
    origin: string,
    contextRevision: int,
    result: NodeResult,
    hasResult: bool,
    cause: string)

  datatype EncodedOutcome = EncodedOutcome(
    activation: Activation,
    result: NodeResult,
    cause: string,
    phase: BranchPhase,
    completion: int,
    committed: bool)

  datatype EncodedSet = EncodedSet(
    id: nat,
    policy: SettlePolicy,
    expected: int,
    branches: seq<nat>,
    outcomes: seq<EncodedOutcome>,
    selected: seq<nat>,
    decided: bool,
    settled: bool,
    failed: bool,
    openSources: int,
    cause: string)

  datatype EncodedIter = EncodedIter(source: IterSource, cause: string)

  datatype StatePayload = StatePayload(
    queue: seq<Activation>,
    activations: seq<EncodedRecord>,
    nextActSeq: nat,
    nextSetSeq: nat,
    nextIterSeq: nat,
    nextCompletion: int,
    scheduled: map<string, int>,
    completed: map<string, int>,
    buckets: map<JoinKey, JoinBucket>,
    correlations: map<CorrelationKey, map<string, int>>,
    sourceSets: seq<EncodedSet>,
    iterSources: seq<EncodedIter>,
    contextRevision: int)

  function TextOf(cause: Option<Cause>): string {
    match cause
    case None => ""
    case Some(value) => value.text
  }

  function CauseOf(text: string): Option<Cause> {
    if text == "" then None else Some(Cause(text, false))
  }

  // ----- lists of what a map holds, by ascending identifier -----

  function Ascending(ids: set<nat>): (sorted: seq<nat>)
    ensures forall id :: id in sorted <==> id in ids
    ensures forall i, j :: 0 <= i < j < |sorted| ==> sorted[i] < sorted[j]
    decreases |ids|
  {
    if ids == {} then []
    else
      HasLeast(ids);
      var least :| IsLeast(ids, least);
      [least] + Ascending(ids - {least})
  }

  function Listed<T, U>(items: map<nat, T>, ids: seq<nat>, encode: T -> U): seq<U>
    requires forall id :: id in ids ==> id in items
  {
    if ids == [] then [] else Listed(items, ids[..|ids| - 1], encode) + [encode(items[ids[|ids| - 1]])]
  }

  function Collected<U, T>(items: seq<U>, key: U -> nat, decode: U -> T): map<nat, T> {
    if items == [] then map[]
    else
      var last := items[|items| - 1];
      Collected(items[..|items| - 1], key, decode)[key(last) := decode(last)]
  }

  ghost predicate Trips<T, U, V>(items: map<nat, T>, id: nat, encode: T -> U, key: U -> nat, decode: U -> V,
                                 result: map<nat, V>) {
    && id in items && id in result
    && key(encode(items[id])) == id && decode(encode(items[id])) == result[id]
  }

  /** Collecting what was listed gives back a map that each item comes back as part of. */
  lemma {:induction false} ListedIsCollected<T, U, V>(items: map<nat, T>, ids: seq<nat>, encode: T -> U, key: U -> nat,
                                                      decode: U -> V, result: map<nat, V>)
    requires forall id :: id in ids ==> id in items && id in result
    requires forall id :: id in ids ==> Trips(items, id, encode, key, decode, result)
    ensures Collected(Listed(items, ids, encode), key, decode) == map id | id in ids :: result[id]
  {
    if ids != [] {
      var last := |ids| - 1;
      ListedIsCollected(items, ids[..last], encode, key, decode, result);
      var shorter := Listed(items, ids[..last], encode);
      assert (shorter + [encode(items[ids[last]])])[..|shorter|] == shorter;
      assert Trips(items, ids[last], encode, key, decode, result);
      assert forall id :: id in ids <==> id in ids[..last] || id == ids[last];
    }
  }

  lemma AllListed<V>(result: map<nat, V>, ids: seq<nat>)
    requires forall id :: id in ids <==> id in result
    ensures (map id | id in ids :: result[id]) == result
  {
  }

  lemma {:induction false} ListedSize<T, U>(items: map<nat, T>, ids: seq<nat>, encode: T -> U)
    requires forall id :: id in ids ==> id in items
    ensures |Listed(items, ids, encode)| == |ids|
    ensures forall i :: 0 <= i < |ids| ==> Listed(items, ids, encode)[i] == encode(items[ids[i]])
  {
    if ids != [] {
      ListedSize(items, ids[..|ids| - 1], encode);
    }
  }

  /** Lists agree if their items are encoded alike. */
  lemma {:induction false} ListedAlike<T, U>(left: map<nat, T>, right: map<nat, T>, ids: seq<nat>, encode: T -> U)
    requires forall id :: id in ids ==> id in left && id in right && encode(left[id]) == encode(right[id])
    ensures Listed(left, ids, encode) == Listed(right, ids, encode)
  {
    if ids != [] {
      ListedAlike(left, right, ids[..|ids| - 1], encode);
    }
  }

  // ----- encoding -----

  function EncodeRecord(record: ActivationRecord): EncodedRecord {
    EncodedRecord(record.activation, record.phase, record.attempt, record.version, record.origin,
      record.contextRevision,
                  KeptResult(record), record.hasResult, TextOf(record.cause))
  }

  /** What a payload keeps of a result: the output only of a success. */
  function KeptResult(record: ActivationRecord): NodeResult {
    if record.hasResult then record.result else record.result.(output := "")
  }

  function EncodeOutcome(outcome: BranchOutcome): EncodedOutcome {
    EncodedOutcome(outcome.activation, outcome.result, TextOf(outcome.cause), outcome.phase, outcome.completion,
      outcome.committed)
  }

  function EncodeSet(id: nat, group: SourceSet): EncodedSet {
    EncodedSet(id, group.policy, group.expected, group.branches,
               Listed(group.outcomes, Ascending(group.outcomes.Keys), EncodeOutcome),
               group.selected, group.decided, group.settled, group.failed, group.openSources, TextOf(group.cause))
  }

  function EncodeIter(source: IterSource): EncodedIter {
    EncodedIter(source.(cause := None), TextOf(source.cause))
  }

  // A set does not know its own identifier here, so it is listed together with it.
  function Named(sourceSets: map<nat, SourceSet>): map<nat, (nat, SourceSet)> {
    map id | id in sourceSets :: (id, sourceSets[id])
  }

  function EncodeNamed(named: (nat, SourceSet)): EncodedSet {
    EncodeSet(named.0, named.1)
  }

  function Encode(state: RunState): StatePayload {
    StatePayload(
      state.queue,
      Listed(state.activations, Ascending(state.activations.Keys), EncodeRecord),
      state.nextActSeq, state.nextSetSeq, state.nextIterSeq, state.nextCompletion,
      state.scheduled, state.completed, state.buckets, state.correlations,
      Listed(Named(state.sourceSets), Ascending(state.sourceSets.Keys), EncodeNamed),
      Listed(state.iterSources, Ascending(state.iterSources.Keys), EncodeIter),
      state.contextRevision)
  }

  // ----- restoring -----

  function DecodeRecord(encoded: EncodedRecord): ActivationRecord {
    ActivationRecord(encoded.activation, encoded.phase, encoded.attempt, encoded.version,
                     if encoded.origin == "" then "natural" else encoded.origin, encoded.contextRevision,
                     encoded.result, encoded.hasResult, CauseOf(encoded.cause))
  }

  function DecodeOutcome(encoded: EncodedOutcome): BranchOutcome {
    BranchOutcome(encoded.activation, encoded.result, CauseOf(encoded.cause), encoded.phase, encoded.completion,
      encoded.committed)
  }

  function OutcomeID(encoded: EncodedOutcome): nat {
    encoded.activation.id
  }

  function RecordID(encoded: EncodedRecord): nat {
    encoded.activation.id
  }

  function SetID(encoded: EncodedSet): nat {
    encoded.id
  }

  function IterID(encoded: EncodedIter): nat {
    encoded.source.id
  }

  function DecodeSet(encoded: EncodedSet): SourceSet {
    SourceSet(encoded.policy, encoded.expected, encoded.branches,
              Collected(encoded.outcomes, OutcomeID, DecodeOutcome),
              encoded.selected, encoded.decided || encoded.selected != [], encoded.settled, encoded.failed,
              encoded.openSources, CauseOf(encoded.cause))
  }

  function DecodeIter(encoded: EncodedIter): IterSource {
    encoded.source.(cause := CauseOf(encoded.cause))
  }

  function Max(left: int, right: int): int {
    if left < right then right else left
  }

  /** The versions of nodes: the largest any record of the node has. */
  function VersionsOf(records: seq<EncodedRecord>): map<string, int> {
    if records == [] then map[]
    else
      var last := records[|records| - 1];
      var versions := VersionsOf(records[..|records| - 1]);
      versions[last.activation.node := Max(At(versions, last.activation.node), last.version)]
  }

  /** Puts records into the state one by one. */
  method RestoreActivations(records: seq<EncodedRecord>)
    returns (activations: map<nat, ActivationRecord>, nodeVersions: map<string, int>)
    ensures activations == Collected(records, RecordID, DecodeRecord)
    ensures nodeVersions == VersionsOf(records)
  {
    activations, nodeVersions := map[], map[];
    for index := 0 to |records|
      invariant activations == Collected(records[..index], RecordID, DecodeRecord)
      invariant nodeVersions == VersionsOf(records[..index])
    {
      var encoded := records[index];
      assert records[..index + 1][..index] == records[..index];
      activations := activations[encoded.activation.id := DecodeRecord(encoded)];
      nodeVersions := nodeVersions[encoded.activation.node :=
        Max(At(nodeVersions, encoded.activation.node), encoded.version)];
    }
    assert records[..|records|] == records;
  }

  // A branch whose activation was not recorded gets a record from its outcome.
  function PhaseForBranch(phase: BranchPhase): Phase {
    match phase
    case BranchCompleted => Completed
    case BranchSuperseded => Completed
    case BranchFailed => Failed
    case BranchSkipped => Skipped
    case BranchCanceled => Canceled
  }

  function BranchRecords(activations: map<nat, ActivationRecord>, group: SourceSet): map<nat, ActivationRecord> {
    activations + (map id | id in group.outcomes && id !in activations ::
      var outcome := group.outcomes[id];
      ActivationRecord(outcome.activation, PhaseForBranch(outcome.phase), 1, 0, "", 0,
                       outcome.result, outcome.cause.None?, outcome.cause))
  }

  function SetRecords(activations: map<nat, ActivationRecord>, sets: seq<EncodedSet>): map<nat, ActivationRecord> {
    if sets == [] then activations
    else BranchRecords(SetRecords(activations, sets[..|sets| - 1]), DecodeSet(sets[|sets| - 1]))
  }

  /** Tracks what is queued, as it is tracked when it is scheduled. */
  function QueueRecords(activations: map<nat, ActivationRecord>, queue: seq<Activation>): map<nat, ActivationRecord> {
    if queue == [] then activations
    else
      var before, item := QueueRecords(activations, queue[..|queue| - 1]), queue[|queue| - 1];
      if item.id in before then before else before[item.id := Tracked(item)]
  }

  function QueueCorrelations(correlations: map<CorrelationKey, map<string, int>>,
                             queue: seq<Activation>): map<CorrelationKey, map<string, int>> {
    if queue == [] then correlations
    else TrackCorrelation(QueueCorrelations(correlations, queue[..|queue| - 1]), queue[|queue| - 1])
  }

  /** The state a payload stands for, with the history that led to it. */
  function Restore(payload: StatePayload, routed: seq<nat>, joined: seq<Joining>): RunState {
    var recorded := QueueRecords(Collected(payload.activations, RecordID, DecodeRecord), payload.queue);
    RunState(
      payload.queue,
      SetRecords(recorded, payload.sourceSets),
      if payload.nextActSeq == 0 then |payload.queue| + 1 else payload.nextActSeq,
      if payload.nextSetSeq == 0 then 1 else payload.nextSetSeq,
      if payload.nextIterSeq == 0 then 1 else payload.nextIterSeq,
      payload.nextCompletion, payload.scheduled, payload.completed, VersionsOf(payload.activations),
      payload.buckets,
      if payload.correlations != map[] then payload.correlations else QueueCorrelations(map[], payload.queue),
      Collected(payload.sourceSets, SetID, DecodeSet),
      Collected(payload.iterSources, IterID, DecodeIter),
      if payload.contextRevision <= 0 then 1 else payload.contextRevision,
      routed, joined)
  }

  // ----- what restoring gives back -----

  /** An error after a round trip: its text without what it wrapped, none without text. */
  function PlainCause(cause: Option<Cause>): Option<Cause> {
    CauseOf(TextOf(cause))
  }

  function PlainRecord(record: ActivationRecord): ActivationRecord {
    record.(result := KeptResult(record), cause := PlainCause(record.cause))
  }

  function PlainOutcome(outcome: BranchOutcome): BranchOutcome {
    outcome.(cause := PlainCause(outcome.cause))
  }

  function PlainSet(group: SourceSet): SourceSet {
    group.(cause := PlainCause(group.cause), outcomes := map id | id in group.outcomes ::
      PlainOutcome(group.outcomes[id]))
  }

  function PlainIter(source: IterSource): IterSource {
    source.(cause := PlainCause(source.cause))
  }

  /** The state with every error as plain text; all else is the same. */
  function Plain(state: RunState): RunState {
    state.(
      activations := map id | id in state.activations :: PlainRecord(state.activations[id]),
      sourceSets := map id | id in state.sourceSets :: PlainSet(state.sourceSets[id]),
      iterSources := map iter | iter in state.iterSources :: PlainIter(state.iterSources[iter]))
  }

  /** A node's version is the largest any of its activations was run as. */
  ghost predicate VersionsSound(state: RunState) {
    && (forall id :: id in state.activations ==>
          state.activations[id].version <= At(state.nodeVersions, state.activations[id].activation.node))
    && (forall node :: At(state.nodeVersions, node) != 0 ==> exists id :: VersionOf(state, node, id))
  }

  ghost predicate VersionOf(state: RunState, node: string, id: nat) {
    && id in state.activations && state.activations[id].activation.node == node
    && state.activations[id].version == At(state.nodeVersions, node)
  }

  /** What operations keep of the things only the codec looks at. */
  ghost predicate Kept(state: RunState) {
    && VersionsSound(state)
    && (forall id :: id in state.activations ==> state.activations[id].origin != "")
    && OwnIDs(state.iterSources) && state.nextSetSeq > 0 && state.contextRevision > 0
  }

  lemma RecordsRoundTrip(state: RunState)
    requires QueueSound(state) && forall id :: id in state.activations ==> state.activations[id].origin != ""
    ensures Collected(Encode(state).activations, RecordID, DecodeRecord) == Plain(state).activations
  {
    var ids, plain := Ascending(state.activations.Keys), Plain(state).activations;
    forall id | id in ids
      ensures Trips(state.activations, id, EncodeRecord, RecordID, DecodeRecord, plain)
    {
    }
    hide QueueSound, Trips;
    ListedIsCollected(state.activations, ids, EncodeRecord, RecordID, DecodeRecord, plain);
    AllListed(plain, ids);
  }

  lemma OutcomesRoundTrip(group: SourceSet)
    requires forall id :: id in group.outcomes ==> group.outcomes[id].activation.id == id
    ensures Collected(Listed(group.outcomes, Ascending(group.outcomes.Keys), EncodeOutcome), OutcomeID, DecodeOutcome)
      == PlainSet(group).outcomes
  {
    var ids, plain := Ascending(group.outcomes.Keys), PlainSet(group).outcomes;
    forall id | id in ids
      ensures Trips(group.outcomes, id, EncodeOutcome, OutcomeID, DecodeOutcome, plain)
    {
    }
    hide Trips;
    ListedIsCollected(group.outcomes, ids, EncodeOutcome, OutcomeID, DecodeOutcome, plain);
    AllListed(plain, ids);
  }

  lemma SetRoundTrip(state: RunState, id: nat)
    requires QueueSound(state) && SetsSound(state, None, 0) && id in state.sourceSets
    ensures DecodeSet(EncodeSet(id, state.sourceSets[id])) == PlainSet(state.sourceSets[id])
    ensures forall branch :: branch in state.sourceSets[id].outcomes ==> branch in state.activations
  {
    var group := state.sourceSets[id];
    assert SetSound(state.activations, id, group, 0);
    forall branch | branch in group.outcomes
      ensures group.outcomes[branch].activation.id == branch && branch in state.activations
    {
      assert OutcomeSound(state.activations, group, branch);
    }
    OutcomesRoundTrip(group);
  }

  lemma SetsRoundTrip(state: RunState)
    requires QueueSound(state) && SetsSound(state, None, 0)
    ensures Collected(Encode(state).sourceSets, SetID, DecodeSet) == Plain(state).sourceSets
  {
    hide QueueSound, SetsSound, DecodeSet, PlainSet;
    var ids, named, plain := Ascending(state.sourceSets.Keys), Named(state.sourceSets), Plain(state).sourceSets;
    forall id | id in ids
      ensures Trips(named, id, EncodeNamed, SetID, DecodeSet, plain)
    {
      SetRoundTrip(state, id);
    }
    hide Trips;
    ListedIsCollected(named, ids, EncodeNamed, SetID, DecodeSet, plain);
    AllListed(plain, ids);
  }

  lemma ItersRoundTrip(state: RunState)
    requires OwnIDs(state.iterSources)
    ensures Collected(Encode(state).iterSources, IterID, DecodeIter) == Plain(state).iterSources
  {
    var ids, plain := Ascending(state.iterSources.Keys), Plain(state).iterSources;
    forall iter | iter in ids
      ensures Trips(state.iterSources, iter, EncodeIter, IterID, DecodeIter, plain)
    {
    }
    hide Trips;
    ListedIsCollected(state.iterSources, ids, EncodeIter, IterID, DecodeIter, plain);
    AllListed(plain, ids);
  }

  lemma {:induction false} QueueIsTracked(activations: map<nat, ActivationRecord>, queue: seq<Activation>)
    requires forall i :: 0 <= i < |queue| ==> queue[i].id in activations
    ensures QueueRecords(activations, queue) == activations
  {
    if queue != [] {
      QueueIsTracked(activations, queue[..|queue| - 1]);
    }
  }

  lemma {:induction false} OutcomesAreTracked(activations: map<nat, ActivationRecord>, sets: seq<EncodedSet>)
    requires forall i, id :: 0 <= i < |sets| && id in DecodeSet(sets[i]).outcomes ==> id in activations
    ensures SetRecords(activations, sets) == activations
  {
    if sets != [] {
      OutcomesAreTracked(activations, sets[..|sets| - 1]);
    }
  }

  lemma EncodedOutcomesTracked(state: RunState)
    requires QueueSound(state) && SetsSound(state, None, 0)
    ensures SetRecords(Plain(state).activations, Encode(state).sourceSets) == Plain(state).activations
  {
    var ids, named := Ascending(state.sourceSets.Keys), Named(state.sourceSets);
    ListedSize(named, ids, EncodeNamed);
    var sets := Encode(state).sourceSets;
    forall i, branch | 0 <= i < |sets| && branch in DecodeSet(sets[i]).outcomes
      ensures branch in Plain(state).activations
    {
      SetRoundTrip(state, ids[i]);
    }
    OutcomesAreTracked(Plain(state).activations, sets);
  }

  lemma SomethingStands(compiled: Compiled, state: RunState)
    requires QueueSound(state) && JoinsSound(compiled, View(state), None) && state.queue != []
    ensures state.correlations != map[]
  {
    var item := state.queue[0];
    assert TrackedAs(state.activations, item);
    var places := Places(state.activations);
    assert item.id in Standing(places, item.correlation, item.node);
    assert At2(state.correlations, item.correlation, item.node) == |Standing(places, item.correlation, item.node)|;
  }

  // ----- node versions -----

  lemma {:induction false} VersionsBound(records: seq<EncodedRecord>, node: string)
    ensures At(VersionsOf(records), node) >= 0
    ensures forall i :: 0 <= i < |records| && records[i].activation.node == node ==>
      records[i].version <= At(VersionsOf(records), node)
    ensures At(VersionsOf(records), node) > 0 ==>
              exists i :: 0 <= i < |records| && records[i].activation.node == node
                && records[i].version == At(VersionsOf(records), node)
  {
    if records != [] {
      VersionsBound(records[..|records| - 1], node);
    }
  }

  /** Restored node versions are the ones there were. */
  lemma VersionsRoundTrip(state: RunState, node: string)
    requires QueueSound(state) && VersionsSound(state)
    ensures At(VersionsOf(Encode(state).activations), node) == At(state.nodeVersions, node)
  {
    var ids, records := Ascending(state.activations.Keys), Encode(state).activations;
    ListedSize(state.activations, ids, EncodeRecord);
    VersionsBound(records, node);
    if At(state.nodeVersions, node) != 0 {
      var id :| VersionOf(state, node, id);
      var i :| 0 <= i < |ids| && ids[i] == id;
      assert records[i] == EncodeRecord(state.activations[id]);
    }
  }

  // ----- the round trip -----

  /** Restoring an encoded state gives back the state, but for errors, which come back
      as their text; and a node's version is the largest among its activations. */
  lemma RoundTrip(compiled: Compiled, state: RunState)
    requires Conserved(compiled, state) && Kept(state)
    ensures var restored := Restore(Encode(state), state.routed, state.joined);
            && restored == Plain(state).(nodeVersions := restored.nodeVersions)
            && forall node :: At(restored.nodeVersions, node) == At(state.nodeVersions, node)
  {
    var restored := Restore(Encode(state), state.routed, state.joined);
    RecordsRoundTrip(state);
    SetsRoundTrip(state);
    ItersRoundTrip(state);
    EncodedOutcomesTracked(state);
    if state.queue != [] {
      SomethingStands(compiled, state);
    }
    QueueHere(state);
    forall node
      ensures At(restored.nodeVersions, node) == At(state.nodeVersions, node)
    {
      VersionsRoundTrip(state, node);
    }
  }

  lemma QueueHere(state: RunState)
    requires QueueSound(state)
    ensures QueueRecords(Plain(state).activations, state.queue) == Plain(state).activations
  {
    forall i | 0 <= i < |state.queue|
      ensures state.queue[i].id in Plain(state).activations
    {
      assert TrackedAs(state.activations, state.queue[i]);
    }
    QueueIsTracked(Plain(state).activations, state.queue);
  }

  /** Encoding what was restored gives the same payload again. */
  lemma ReencodesTheSame(compiled: Compiled, state: RunState)
    requires Conserved(compiled, state) && Kept(state)
    ensures Encode(Restore(Encode(state), state.routed, state.joined)) == Encode(state)
  {
    RoundTrip(compiled, state);
    PlainEncodesTheSame(state);
    var restored := Restore(Encode(state), state.routed, state.joined);
    hide Conserved, Kept, Restore;
    assert Encode(restored) == Encode(Plain(state));
  }

  lemma PlainEncodesTheSame(state: RunState)
    ensures Encode(Plain(state)) == Encode(state)
  {
    PlainRecordsEncode(state);
    PlainItersEncode(state);
    PlainSetsEncode(state);
  }

  lemma PlainRecordsEncode(state: RunState)
    ensures Encode(Plain(state)).activations == Encode(state).activations
  {
    var plain := Plain(state).activations;
    assert plain.Keys == state.activations.Keys;
    forall id | id in state.activations
      ensures EncodeRecord(plain[id]) == EncodeRecord(state.activations[id])
    {
    }
    hide PlainRecord, EncodeRecord;
    ListedAlike(plain, state.activations, Ascending(state.activations.Keys), EncodeRecord);
  }

  lemma PlainItersEncode(state: RunState)
    ensures Encode(Plain(state)).iterSources == Encode(state).iterSources
  {
    var plain := Plain(state).iterSources;
    assert plain.Keys == state.iterSources.Keys;
    forall id | id in state.iterSources
      ensures EncodeIter(plain[id]) == EncodeIter(state.iterSources[id])
    {
    }
    hide PlainIter, EncodeIter;
    ListedAlike(plain, state.iterSources, Ascending(state.iterSources.Keys), EncodeIter);
  }

  lemma PlainOutcomesEncode(group: SourceSet)
    ensures PlainSet(group).outcomes.Keys == group.outcomes.Keys
    ensures Listed(PlainSet(group).outcomes, Ascending(group.outcomes.Keys), EncodeOutcome)
         == Listed(group.outcomes, Ascending(group.outcomes.Keys), EncodeOutcome)
  {
    hide Ascending, Listed;
    assert PlainSet(group).outcomes.Keys == group.outcomes.Keys;
    ListedAlike(PlainSet(group).outcomes, group.outcomes, Ascending(group.outcomes.Keys), EncodeOutcome);
  }

  lemma PlainSetEncodes(id: nat, group: SourceSet)
    ensures EncodeSet(id, PlainSet(group)) == EncodeSet(id, group)
  {
    hide Ascending, Listed, EncodeOutcome;
    PlainOutcomesEncode(group);
  }

  lemma PlainSetsEncode(state: RunState)
    ensures Encode(Plain(state)).sourceSets == Encode(state).sourceSets
  {
    hide EncodeSet, PlainSet;
    var plain := Plain(state).sourceSets;
    assert plain.Keys == state.sourceSets.Keys;
    forall id | id in state.sourceSets
      ensures EncodeNamed(Named(plain)[id]) == EncodeNamed(Named(state.sourceSets)[id])
    {
      PlainSetEncodes(id, state.sourceSets[id]);
    }
    ListedAlike(Named(plain), Named(state.sourceSets), Ascending(state.sourceSets.Keys), EncodeNamed);
  }

  // ----- when it is exact -----

  predicate PlainText(cause: Option<Cause>) {
    cause.Some? ==> cause.value.text != "" && !cause.value.canceled
  }

  /** The payload keeps the result as it is: only an activation that succeeded has an output. */
  predicate KeptWhole(record: ActivationRecord) {
    record.hasResult || record.result.output == ""
  }

  ghost predicate AllPlain(state: RunState) {
    && (forall id :: id in state.activations ==>
          PlainText(state.activations[id].cause) && KeptWhole(state.activations[id]))
    && (forall id :: id in state.sourceSets ==> SetPlain(state.sourceSets[id]))
    && (forall iter :: iter in state.iterSources ==> PlainText(state.iterSources[iter].cause))
  }

  ghost predicate SetPlain(group: SourceSet) {
    PlainText(group.cause) && forall branch :: branch in group.outcomes ==> PlainText(group.outcomes[branch].cause)
  }

  /** Nothing at all is lost exactly when no recorded error has an empty text or reports a
      cancellation, and no activation that failed had an output: an empty error comes back
      as none, a cancellation as an ordinary failure, and such an output not at all. */
  lemma ExactIffPlain(state: RunState)
    ensures Plain(state) == state <==> AllPlain(state)
  {
    RecordsExact(state);
    SetsExact(state);
    ItersExact(state);
    hide PlainText, KeptWhole, SetPlain, PlainRecord, PlainSet, PlainIter;
  }

  lemma CauseExact(cause: Option<Cause>)
    ensures PlainCause(cause) == cause <==> PlainText(cause)
  {
  }

  lemma RecordsExact(state: RunState)
    ensures Plain(state).activations == state.activations
       <==> forall id :: id in state.activations ==>
         PlainText(state.activations[id].cause) && KeptWhole(state.activations[id])
  {
    forall id | id in state.activations
      ensures Plain(state).activations[id] == state.activations[id]
         <==> PlainText(state.activations[id].cause) && KeptWhole(state.activations[id])
    {
      CauseExact(state.activations[id].cause);
    }
    hide PlainText, KeptWhole, PlainRecord;
  }

  lemma SetsExact(state: RunState)
    ensures Plain(state).sourceSets == state.sourceSets <==> forall id :: id in state.sourceSets ==>
      SetPlain(state.sourceSets[id])
  {
    forall id | id in state.sourceSets
      ensures Plain(state).sourceSets[id] == state.sourceSets[id] <==> SetPlain(state.sourceSets[id])
    {
      SetExact(state.sourceSets[id]);
    }
    hide SetPlain, PlainSet;
  }

  lemma SetExact(group: SourceSet)
    ensures PlainSet(group) == group <==> SetPlain(group)
  {
    CauseExact(group.cause);
    forall branch | branch in group.outcomes
      ensures PlainSet(group).outcomes[branch] == group.outcomes[branch] <==> PlainText(group.outcomes[branch].cause)
    {
      CauseExact(group.outcomes[branch].cause);
    }
    hide PlainText, PlainCause, PlainOutcome;
    assert PlainSet(group).outcomes == group.outcomes
      <==> forall branch :: branch in group.outcomes ==> PlainText(group.outcomes[branch].cause);
  }

  lemma ItersExact(state: RunState)
    ensures Plain(state).iterSources == state.iterSources
       <==> forall iter :: iter in state.iterSources ==> PlainText(state.iterSources[iter].cause)
  {
    forall iter | iter in state.iterSources
      ensures Plain(state).iterSources[iter] == state.iterSources[iter] <==> PlainText(state.iterSources[iter].cause)
    {
      CauseExact(state.iterSources[iter].cause);
    }
    hide PlainText, PlainIter;
  }

  // ----- every reachable state can be encoded -----

  /** Records keep their node, version and origin, and what is new has run nothing. */
  ghost predicate KeepsRecords(before: RunState, after: RunState) {
    && after.nodeVersions == before.nodeVersions && after.contextRevision == before.contextRevision
    && after.nextSetSeq >= before.nextSetSeq
    && (OwnIDs(before.iterSources) ==> OwnIDs(after.iterSources))
    && (forall id :: id in before.activations ==> KeepsRecord(before, after, id))
    && (forall id :: id in after.activations && id !in before.activations ==>
          after.activations[id] == Tracked(after.activations[id].activation))
  }

  ghost predicate KeepsRecord(before: RunState, after: RunState, id: nat)
    requires id in before.activations
  {
    && id in after.activations && after.activations[id].activation.node == before.activations[id].activation.node
    && after.activations[id].version == before.activations[id].version
    && (before.activations[id].origin != "" ==> after.activations[id].origin != "")
  }

  lemma RecordsKeepKept(before: RunState, after: RunState)
    requires Kept(before) && KeepsRecords(before, after)
    ensures Kept(after)
  {
    forall id | id in after.activations
      ensures after.activations[id].version <= At(after.nodeVersions, after.activations[id].activation.node)
      ensures after.activations[id].origin != ""
    {
      if id in before.activations {
        assert KeepsRecord(before, after, id);
      } else {
        NoNegativeVersion(before, after.activations[id].activation.node);
      }
    }
    forall node | At(after.nodeVersions, node) != 0
      ensures exists id :: VersionOf(after, node, id)
    {
      var id :| VersionOf(before, node, id);
      assert KeepsRecord(before, after, id);
      assert VersionOf(after, node, id);
    }
  }

  lemma NoNegativeVersion(state: RunState, node: string)
    requires VersionsSound(state)
    ensures At(state.nodeVersions, node) >= 0
  {
    if At(state.nodeVersions, node) != 0 {
      var id :| VersionOf(state, node, id);
    }
  }

  lemma SpreadingKeeps(before: RunState, after: RunState, except: Option<nat>)
    requires Spreads(before, after, except)
    ensures KeepsRecords(before, after)
  {
    forall id | id in before.activations
      ensures KeepsRecord(before, after, id)
    {
    }
  }

  lemma StartKeepsVersions(state: RunState, id: nat)
    requires Kept(state) && StartActivation(state, id).Ok?
    ensures Kept(StartActivation(state, id).value)
  {
    var after, node := StartActivation(state, id).value, state.activations[id].activation.node;
    NoNegativeVersion(state, node);
    forall other | other in after.activations
      ensures after.activations[other].version <= At(after.nodeVersions, after.activations[other].activation.node)
    {
    }
    forall at | At(after.nodeVersions, at) != 0
      ensures exists other :: VersionOf(after, at, other)
    {
      if at == node {
        assert VersionOf(after, node, id);
      } else {
        assert At(state.nodeVersions, at) == At(after.nodeVersions, at);
        var other :| VersionOf(state, at, other);
        assert VersionOf(after, at, other);
      }
    }
  }

  lemma {:induction false} ClosingKeepsRecords(compiled: Compiled, state: RunState, source: Activation,
                                               targets: seq<string>, selected: map<string, int>)
    requires CloseAll(compiled, state, source, targets, selected).Ok?
    ensures KeepsRecords(state, CloseAll(compiled, state, source, targets, selected).value)
  {
    ClosingOnlyBuckets(compiled, state, source, targets, selected);
  }

  lemma FinishKeepsRecords(state: RunState, ran: Ran)
    requires QueueSound(state) && state.queue != [] && ran.activation == state.queue[0] && Finish(state, ran).Ok?
    ensures KeepsRecords(state, Finish(state, ran).value)
  {
    forall id | id in state.activations
      ensures KeepsRecord(state, Finish(state, ran).value, id)
    {
    }
  }

  lemma RecordsKeptOn(first: RunState, second: RunState, third: RunState)
    requires KeepsRecords(first, second) && KeepsRecords(second, third)
    requires second.activations.Keys == first.activations.Keys
    ensures KeepsRecords(first, third)
  {
    forall id | id in first.activations
      ensures KeepsRecord(first, third, id)
    {
      assert KeepsRecord(first, second, id) && KeepsRecord(second, third, id);
    }
  }

  lemma StandaloneKeepsRecords(compiled: Compiled, state: RunState, ran: Ran, dispatch: Dispatch)
    requires Wired(compiled) && Conserved(compiled, state) && Enabled(compiled, state, CommitStandalone(ran, dispatch))
    requires CommitActivation(compiled, state, ran, dispatch).Ok?
    ensures KeepsRecords(state, CommitActivation(compiled, state, ran, dispatch).value)
  {
    hide QueueSound, SetsSound, ItersSound, RoutingSound, JoinsSound, Finish, Route, CloseAll, KeepsRecords;
    hide FinishedAlone;
    var finished, after := Finish(state, ran).value, CommitActivation(compiled, state, ran, dispatch).value;
    FinishKeepsRecords(state, ran);
    FinishedIsAlone(state, ran);
    FinishingKeeps(compiled, state, ran, finished);
    FinishedPlace(state, ran, finished);
    FinishedKeys(state, ran, finished);
    if ran.result.skipped {
      ClosingKeepsRecords(compiled, finished, ran.activation, Targets(compiled.edges, ran.activation.node), map[]);
    } else {
      ConservedBuilds(compiled, finished);
      PositiveIters(compiled, finished);
      RouteBuilds(compiled, finished, ran.activation, ran.result.output, dispatch);
      SpreadingKeeps(finished, after, None);
    }
    RecordsKeptOn(state, finished, after);
  }

  lemma FinishedKeys(state: RunState, ran: Ran, finished: RunState)
    requires FinishedAlone(state, ran, finished)
    ensures finished.activations.Keys == state.activations.Keys
  {
  }

  lemma ReleaseKeepsRecords(compiled: Compiled, state: RunState, id: nat, branch: nat, dispatch: Dispatch)
    requires Wired(compiled) && Conserved(compiled, state) && id in state.sourceSets
    requires branch in state.sourceSets[id].outcomes
    requires ReleaseBranch(compiled, state, id, branch, dispatch).Ok?
    ensures KeepsRecords(state, ReleaseBranch(compiled, state, id, branch, dispatch).value)
  {
    hide PrepareSourceSet, SetSound;
    var outcome, after :=
      state.sourceSets[id].outcomes[branch], ReleaseBranch(compiled, state, id, branch, dispatch).value;
    hide QueueSound, SetsSound, ItersSound, RoutingSound, JoinsSound, Route, Building, Spreads;
    if !outcome.committed {
      OutcomeFacts(compiled, state, id, branch);
      ConservedBuilds(compiled, state);
      PositiveIters(compiled, state);
      hide Conserved, Building, Route;
      var routed := Route(compiled, state, outcome.activation, outcome.result.output, dispatch).value;
      RouteBuilds(compiled, state, outcome.activation, outcome.result.output, dispatch);
      SpreadingKeeps(state, routed, None);
      hide KeepsRecords;
      OnlySetsDiffer(state, routed, after);
    } else {
      SameRecords(state, after);
    }
  }

  lemma OnlySetsDiffer(before: RunState, routed: RunState, after: RunState)
    requires KeepsRecords(before, routed) && after == routed.(sourceSets := after.sourceSets)
    ensures KeepsRecords(before, after)
  {
    assert forall id :: id in before.activations && KeepsRecord(before, routed, id) ==> KeepsRecord(before, after, id);
  }

  lemma SameRecords(before: RunState, after: RunState)
    requires after.activations == before.activations && after.nodeVersions == before.nodeVersions
    requires after.contextRevision == before.contextRevision && after.nextSetSeq >= before.nextSetSeq
    requires OwnIDs(before.iterSources) ==> OwnIDs(after.iterSources)
    ensures KeepsRecords(before, after)
  {
    forall id | id in before.activations
      ensures KeepsRecord(before, after, id)
    {
    }
  }

  lemma CommittedRecords(state: RunState, ran: Ran)
    requires QueueSound(state) && state.queue != [] && ran.activation == state.queue[0] && CommitBranch(state, ran).Ok?
    ensures KeepsRecords(state, CommitBranch(state, ran).value)
  {
    forall id | id in state.activations
      ensures KeepsRecord(state, CommitBranch(state, ran).value, id)
    {
    }
  }

  lemma InterruptedRecords(state: RunState, id: nat)
    requires InterruptActivation(state, id).Ok?
    ensures KeepsRecords(state, InterruptActivation(state, id).value)
  {
    forall other | other in state.activations
      ensures KeepsRecord(state, InterruptActivation(state, id).value, other)
    {
    }
  }

  lemma ResumedRecords(state: RunState, resolved: bool)
    ensures KeepsRecords(state, PrepareResume(state, resolved))
  {
    forall id | id in state.activations
      ensures KeepsRecord(state, PrepareResume(state, resolved), id)
    {
    }
  }

  lemma CanceledRecords(state: RunState, id: nat)
    requires id in state.sourceSets && CancelNext(state, id).Ok?
    ensures KeepsRecords(state, CancelNext(state, id).value)
  {
    hide NextUnselected;
    forall other | other in state.activations
      ensures KeepsRecord(state, CancelNext(state, id).value, other)
    {
    }
  }

  lemma RetriedRecords(state: RunState, id: nat, input: string)
    requires QueueSound(state) && RetryActivation(state, id, input).Ok?
    ensures KeepsRecords(state, RetryActivation(state, id, input).value)
  {
    RetriedIsRequeued(state, id, input);
    forall other | other in state.activations
      ensures KeepsRecord(state, RetryActivation(state, id, input).value, other)
    {
    }
  }

  lemma JoinedRecords(state: RunState, key: JoinKey, input: string)
    requires QueueSound(state)
    ensures KeepsRecords(state, MaterializeJoin(state, key, input))
  {
    assert state.nextActSeq !in state.activations;
    forall id | id in state.activations
      ensures KeepsRecord(state, MaterializeJoin(state, key, input), id)
    {
    }
  }

  lemma PulledRecords(compiled: Compiled, state: RunState, iter: nat, value: string, cursor: Option<string>)
    requires QueueSound(state) && PullItem(compiled, state, iter, value, cursor).Ok?
    ensures KeepsRecords(state, PullItem(compiled, state, iter, value, cursor).value)
  {
    hide NextCorrelation, TrackCorrelation, Bump;
    assert state.nextActSeq !in state.activations;
    forall id | id in state.activations
      ensures KeepsRecord(state, PullItem(compiled, state, iter, value, cursor).value, id)
    {
    }
  }

  lemma ClosedRecords(state: RunState, id: nat, after: RunState)
    requires after.activations == state.activations && after.nodeVersions == state.nodeVersions
    requires after.contextRevision == state.contextRevision && after.nextSetSeq == state.nextSetSeq
    requires after.iterSources == CloseIterSources(state, id).iterSources
    ensures KeepsRecords(state, after)
  {
    ClosedKeepsOwnIDs(state.iterSources, id);
    hide KeepsRecords, OwnIDs, ClosedFor;
    SameRecords(state, after);
  }

  lemma ClosedKeepsOwnIDs(sources: map<nat, IterSource>, id: nat)
    ensures OwnIDs(sources) ==> OwnIDs(ClosedFor(sources, id))
  {
  }

  lemma IterRecords(state: RunState, iter: nat, after: RunState)
    requires after.activations == state.activations && after.nodeVersions == state.nodeVersions
    requires after.contextRevision == state.contextRevision && after.nextSetSeq == state.nextSetSeq
    requires iter in state.iterSources && iter in after.iterSources
    requires after.iterSources[iter].id == state.iterSources[iter].id
    requires after.iterSources == state.iterSources[iter := after.iterSources[iter]]
    ensures KeepsRecords(state, after)
  {
    hide KeepsRecords;
    SameRecords(state, after);
  }

  lemma IterHasSet(compiled: Compiled, state: RunState, iter: nat)
    requires ItersSound(compiled, state, None, 0) && iter in state.iterSources
    ensures state.iterSources[iter].sourceSet in state.sourceSets
  {
    assert IterAt(compiled, state, state.iterSources[iter]);
  }

  lemma FailedIterRecords(state: RunState, iter: nat, cause: Cause)
    requires iter in state.iterSources && state.iterSources[iter].sourceSet in state.sourceSets
    ensures KeepsRecords(state, FailIter(state, iter, cause))
  {
    hide KeepsRecords;
    SameRecords(state, FailIter(state, iter, cause));
  }

  lemma PerformKeepsKept(compiled: Compiled, state: RunState, operation: Operation)
    requires Wired(compiled) && Conserved(compiled, state) && Enabled(compiled, state, operation)
    requires Perform(compiled, state, operation).Ok?
    requires Kept(state)
    ensures Kept(Perform(compiled, state, operation).value)
  {
    hide Kept, KeepsRecords, QueueSound, SetsSound, ItersSound, RoutingSound, JoinsSound, CommitActivation;
    hide ReleaseBranch, CloseAll, StartActivation, MaterializeJoin, PullItem, RetryActivation, CommitBranch;
    hide InterruptActivation, PrepareResume, CancelNext, FailIter;
    var after := Perform(compiled, state, operation).value;
    match operation {
    case StartOne(id) => StartKeepsVersions(state, id);
    case CommitStandalone(ran, dispatch) => StandaloneKeepsRecords(compiled, state, ran, dispatch);
    case ReleaseOne(id, branch, dispatch) => ReleaseKeepsRecords(compiled, state, id, branch, dispatch);
    case CloseOne(id, branch) =>
      var source := state.sourceSets[id].outcomes[branch].activation;
      ClosingKeepsRecords(compiled, state, source, Targets(compiled.edges, source.node), map[]);
    case FireJoin(key, input) => JoinedRecords(state, key, input);
    case Pulled(iter, value, cursor) => PulledRecords(compiled, state, iter, value, cursor);
    case RetryOne(id, input) => RetriedRecords(state, id, input);
    case CommitOne(ran) => CommittedRecords(state, ran);
    case InterruptOne(id) => InterruptedRecords(state, id);
    case ResumeAll(resolved) => ResumedRecords(state, resolved);
    case CancelOne(id) => CanceledRecords(state, id);
    case Decided(id, _) => ClosedRecords(state, id, after);
    case FailedSet(id) => ClosedRecords(state, id, after);
    case Exhausted(iter) => IterRecords(state, iter, after);
    case FailedIter(iter, cause) =>
      IterHasSet(compiled, state, iter);
      FailedIterRecords(state, iter, cause);
    case SupersedeOne(_, _) => SameRecords(state, after);
    case Settled(_) => SameRecords(state, after);
    case Permuted(_) => SameRecords(state, after);
    case Numbered(_) => SameRecords(state, after);
    }
    if !operation.StartOne? {
      RecordsKeepKept(state, after);
    }
  }

  lemma InitialIsKept(compiled: Compiled, runID: string, input: string)
    ensures Kept(Initial(compiled, runID, input))
  {
  }

  lemma ResumeKeepsKept(state: RunState, resolved: bool)
    requires Kept(state)
    ensures Kept(PrepareResume(state, resolved))
  {
    var after := PrepareResume(state, resolved);
    forall id | id in state.activations
      ensures KeepsRecord(state, after, id)
    {
    }
    RecordsKeepKept(state, after);
  }

  lemma RestoredIsKept(compiled: Compiled, state: RunState)
    requires Conserved(compiled, state) && Kept(state)
    ensures Kept(Restore(Encode(state), state.routed, state.joined))
  {
    hide Encode, Restore, Conserved, Kept, Plain;
    RoundTrip(compiled, state);
    PlainIsKept(state, Restore(Encode(state), state.routed, state.joined));
  }

  lemma PlainIsKept(state: RunState, after: RunState)
    requires Kept(state) && after == Plain(state).(nodeVersions := after.nodeVersions)
    requires forall node :: At(after.nodeVersions, node) == At(state.nodeVersions, node)
    ensures Kept(after)
  {
    hide At, KeptResult, PlainCause, PlainSet;
    PlainKeepsIDs(state);
    hide PlainIter;
    forall node | At(after.nodeVersions, node) != 0
      ensures exists id :: VersionOf(after, node, id)
    {
      assert At(state.nodeVersions, node) != 0;
      var id :| VersionOf(state, node, id);
      assert after.activations[id] == PlainRecord(state.activations[id]);
      assert VersionOf(after, node, id);
    }
  }

  lemma PlainKeepsIDs(state: RunState)
    requires OwnIDs(state.iterSources)
    ensures OwnIDs(Plain(state).iterSources)
  {
    hide PlainCause, PlainRecord, PlainSet;
  }

  /** So a run restored from its checkpoint is as sound as it was. */
  lemma RestoredIsConserved(compiled: Compiled, state: RunState)
    requires Conserved(compiled, state) && Kept(state)
    ensures Conserved(compiled, Restore(Encode(state), state.routed, state.joined))
  {
    var restored := Restore(Encode(state), state.routed, state.joined);
    RoundTrip(compiled, state);
    PlainIsConserved(compiled, state);
    hide Kept, Conserved, Restore;
    VersionsDoNotMatter(compiled, Plain(state), restored);
  }

  lemma VersionsDoNotMatter(compiled: Compiled, state: RunState, after: RunState)
    requires Conserved(compiled, state) && after == state.(nodeVersions := after.nodeVersions)
    ensures Conserved(compiled, after)
  {
    hide Conserved;
    RecordsConserve(compiled, state, after);
  }

  lemma PlainIsConserved(compiled: Compiled, state: RunState)
    requires Conserved(compiled, state)
    ensures Conserved(compiled, Plain(state))
  {
    hide QueueSound, JoinsSound, SetsSound, ItersSound, RoutingSound;
    PlainSetsSound(state);
    PlainItersSound(compiled, state);
    PlainRoutingSound(state);
    PlainStanding(state);
    hide Plain;
    StandingKeepsQueue(state, Plain(state));
  }

  lemma PlainStanding(state: RunState)
    ensures var plain := Plain(state);
            && SameStanding(state, plain) && View(plain) == View(state) && plain.queue == state.queue
            && plain.scheduled == state.scheduled
            && plain.completed == state.completed && plain.nextActSeq == state.nextActSeq
  {
    assert Places(Plain(state).activations) == Places(state.activations);
  }

  lemma PlainRoutingSound(state: RunState)
    requires RoutingSound(state)
    ensures RoutingSound(Plain(state))
  {
    forall id: nat
      ensures Released(Plain(state), id) <==> Released(state, id)
    {
    }
  }

  lemma PlainSetsSound(state: RunState)
    requires SetsSound(state, None, 0)
    ensures SetsSound(Plain(state), None, 0)
  {
    var plain := Plain(state);
    forall id | id in plain.sourceSets
      ensures SetSound(plain.activations, id, plain.sourceSets[id], 0)
    {
      PlainSetSound(state, id);
    }
  }

  lemma PlainSetSound(state: RunState, id: nat)
    requires id in state.sourceSets && SetSound(state.activations, id, state.sourceSets[id], 0)
    ensures SetSound(Plain(state).activations, id, PlainSet(state.sourceSets[id]), 0)
  {
    var activations, group, plain := Plain(state).activations, state.sourceSets[id], PlainSet(state.sourceSets[id]);
    forall i | 0 <= i < |plain.branches|
      ensures BranchAt(activations, id, plain, i)
    {
      assert BranchAt(state.activations, id, group, i);
    }
    forall branch | branch in plain.outcomes
      ensures branch in plain.branches && OutcomeSound(activations, plain, branch)
    {
      assert OutcomeSound(state.activations, group, branch);
    }
    assert plain.outcomes.Keys == group.outcomes.Keys;
  }

  lemma PlainItersSound(compiled: Compiled, state: RunState)
    requires ItersSound(compiled, state, None, 0)
    ensures ItersSound(compiled, Plain(state), None, 0)
  {
    var plain := Plain(state);
    forall iter | iter in plain.iterSources
      ensures iter < plain.nextIterSeq && IterAt(compiled, plain, plain.iterSources[iter])
    {
      assert IterAt(compiled, state, state.iterSources[iter]);
    }
    forall id | id in plain.sourceSets
      ensures OpenIters(plain.iterSources, id) == OpenIters(state.iterSources, id)
    {
    }
  }
}
