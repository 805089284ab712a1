/** The scheduler state of one run: ready queue, activations, source sets, join
    buckets, iterator sources (workflow/workflow.go, activation.go, settle.go,
    join_expectation.go, iter_source.go), and the operations that update it. */
module RunState {
  import opened Options
  import opened Topology

  const INITIAL_EPOCH := 1

  datatype Compiled = Compiled(
    entry: string,
    edges: Edges,
    predecessors: Edges,
    backEdges: set<Edge>,
    joins: set<string>,
    exits: set<string>,
    maxSteps: int,
    maxParallelism: int)

  datatype Activation = Activation(
    id: nat,
    node: string,
    input: string,
    sourceSet: Option<nat>,
    branchIndex: int,
    correlation: CorrelationKey)

  datatype Phase = Ready | Running | Completed | Failed | Canceled | Interrupted | Skipped

  // An error: its text, and whether it reports a cancellation or a passed deadline.
  datatype Cause = Cause(text: string, canceled: bool)

  datatype NodeResult = NodeResult(output: string, skipped: bool)

  const NO_RESULT := NodeResult("", false)

  datatype ActivationRecord = ActivationRecord(
    activation: Activation,
    phase: Phase,
    attempt: nat,
    version: nat,
    origin: string,
    contextRevision: int,
    result: NodeResult,
    hasResult: bool,
    cause: Option<Cause>)

  datatype SettlePolicy = All | Any | Quorum(quorum: int)

  datatype BranchPhase = BranchCompleted | BranchFailed | BranchSkipped | BranchCanceled | BranchSuperseded

  datatype BranchOutcome = BranchOutcome(
    activation: Activation,
    result: NodeResult,
    cause: Option<Cause>,
    phase: BranchPhase,
    completion: int,
    committed: bool)

  datatype SourceSet = SourceSet(
    policy: SettlePolicy,
    expected: int,
    branches: seq<nat>,
    outcomes: map<nat, BranchOutcome>,
    selected: seq<nat>,
    decided: bool,
    settled: bool,
    failed: bool,
    openSources: int,
    cause: Option<Cause>)

  datatype JoinKey = JoinKey(target: string, correlation: CorrelationKey)

  datatype JoinBucket = JoinBucket(
    contributions: map<string, seq<string>>,
    expectations: map<string, map<nat, int>>)

  datatype IterSource = IterSource(
    id: nat,
    sourceID: nat,
    target: string,
    sourceSet: nat,
    deliveryIndex: nat,
    pulled: nat,
    cursor: Option<string>,
    replay: bool,
    open: bool,
    cause: Option<Cause>)

  // A join that has been materialized, and the activation it became.
  datatype Joining = Joining(key: JoinKey, id: nat)

  // `routed` and `joined` are history: which activations have been routed on, and
  // which joins have been materialized, in order.
  datatype RunState = RunState(
    queue: seq<Activation>,
    activations: map<nat, ActivationRecord>,
    nextActSeq: nat,
    nextSetSeq: nat,
    nextIterSeq: nat,
    nextCompletion: int,
    scheduled: map<string, int>,
    completed: map<string, int>,
    nodeVersions: map<string, int>,
    buckets: map<JoinKey, JoinBucket>,
    correlations: map<CorrelationKey, map<string, int>>,
    sourceSets: map<nat, SourceSet>,
    iterSources: map<nat, IterSource>,
    contextRevision: int,
    routed: seq<nat>,
    joined: seq<Joining>)

  datatype SchedulerError =
    | NotNext(id: nat)
    | NotTracked(id: nat)
    | WrongPhase(id: nat)
    | SetMissing
    | OutcomeMissing(id: nat)
    | ExpectationChanged(id: nat)
    | BadRoute
    | IteratorFault

  datatype Result<T> = Ok(value: T) | Err(error: SchedulerError)

  /** A counter in a map, absent meaning 0. */
  function At<K>(counts: map<K, int>, key: K): int {
    if key in counts then counts[key] else 0
  }

  function Bump<K>(counts: map<K, int>, key: K): map<K, int> {
    counts[key := At(counts, key) + 1]
  }

  // ----- a new run -----

  function Initial(compiled: Compiled, runID: string, input: string): RunState {
    var correlation := CorrelationKey(runID, INITIAL_EPOCH);
    var first := Activation(1, compiled.entry, input, None, 0, correlation);
    RunState([first], map[1 := Tracked(first)], 2, 1, 1, 0, map[compiled.entry := 1], map[], map[], map[],
             map[correlation := map[compiled.entry := 1]], map[], map[], 1, [], [])
  }

  function Tracked(item: Activation): ActivationRecord {
    ActivationRecord(item, Ready, 0, 0, "natural", 0, NO_RESULT, false, None)
  }

  // ----- queue and activations -----

  function TrackCorrelation(correlations: map<CorrelationKey, map<string, int>>,
                            item: Activation): map<CorrelationKey, map<string, int>> {
    var byNode := if item.correlation in correlations then correlations[item.correlation] else map[];
    correlations[item.correlation := Bump(byNode, item.node)]
  }

  function Enqueue(state: RunState, target: string, input: string, sourceSet: Option<nat>, branchIndex: int,
                   correlation: CorrelationKey): RunState {
    var id := state.nextActSeq;
    var item := Activation(id, target, input, sourceSet, branchIndex, correlation);
    state.(
      nextActSeq := id + 1,
      queue := state.queue + [item],
      activations := if id in state.activations then state.activations else state.activations[id := Tracked(item)],
      scheduled := Bump(state.scheduled, target),
      correlations := TrackCorrelation(state.correlations, item),
      sourceSets :=
        if sourceSet.Some? && sourceSet.value in state.sourceSets then
          var group := state.sourceSets[sourceSet.value];
          state.sourceSets[sourceSet.value := group.(branches := group.branches + [id])]
        else state.sourceSets)
  }

  function RemoveReady(state: RunState, id: nat): Result<RunState> {
    if state.queue == [] || state.queue[0].id != id then Err(NotNext(id)) else Ok(state.(queue := state.queue[1..]))
  }

  /** Moves an activation from one phase on, if it is in that phase. */
  function Advance(state: RunState, id: nat, from: Phase,
                   record: ActivationRecord -> ActivationRecord): Result<RunState> {
    if id !in state.activations then Err(NotTracked(id))
    else if state.activations[id].phase != from then Err(WrongPhase(id))
    else Ok(state.(activations := state.activations[id := record(state.activations[id])]))
  }

  function StartActivation(state: RunState, id: nat): Result<RunState> {
    if id !in state.activations then Err(NotTracked(id))
    else if state.activations[id].phase != Ready then Err(WrongPhase(id))
    else
      var record := state.activations[id];
      var versions := Bump(state.nodeVersions, record.activation.node);
      var version := versions[record.activation.node];
      Ok(state.(
        nodeVersions := versions,
        activations := state.activations[id := record.(
          phase := Running, attempt := record.attempt + 1, version := if version >= 0 then version else 0,
          contextRevision := state.contextRevision)]))
  }

  function CompletedPhase(result: NodeResult, cause: Option<Cause>): Phase {
    if cause.Some? then (if cause.value.canceled then Canceled else Failed)
    else if result.skipped then Skipped else Completed
  }

  function FinishActivation(state: RunState, id: nat, result: NodeResult, cause: Option<Cause>): Result<RunState> {
    Advance(state, id, Running, (record: ActivationRecord) => record.(
      phase := CompletedPhase(result, cause), result := result, hasResult := cause.None?, cause := cause))
  }

  function CancelActivation(state: RunState, id: nat, cause: Cause): Result<RunState> {
    Advance(state, id, Ready, (record: ActivationRecord) => record.(phase := Canceled, cause := Some(cause)))
  }

  function InterruptActivation(state: RunState, id: nat): Result<RunState> {
    Advance(state, id, Running, (record: ActivationRecord) => record.(phase := Interrupted))
  }

  /** Runs the node again with another input: back to the end of the queue. */
  function RetryActivation(state: RunState, id: nat, input: string): Result<RunState> {
    if id !in state.activations then Err(NotTracked(id))
    else if state.activations[id].phase != Running then Err(WrongPhase(id))
    else
      var removed := RemoveReady(state, id);
      if removed.Err? then removed
      else
        var record := state.activations[id];
        var item := record.activation.(input := input);
        Ok(removed.value.(
          queue := removed.value.queue + [item],
          activations := state.activations[id := record.(
            activation := item, phase := Ready, origin := "guard_retry", result := NO_RESULT, hasResult := false,
            cause := None)]))
  }

  /** What a resume makes of the activations of a checkpoint. */
  function PrepareResume(state: RunState, resolved: bool): RunState {
    state.(activations := map id | id in state.activations :: Resumed(state.activations[id], resolved))
  }

  function Resumed(record: ActivationRecord, resolved: bool): ActivationRecord {
    record.(
      origin := if record.origin == "" then "natural" else record.origin,
      phase := if record.phase == Running || (resolved && record.phase == Interrupted) then Ready else record.phase)
  }

  // ----- join buckets -----

  function BucketAt(buckets: map<JoinKey, JoinBucket>, key: JoinKey): JoinBucket {
    if key in buckets then buckets[key] else JoinBucket(map[], map[])
  }

  function Expected(bucket: JoinBucket, node: string): map<nat, int> {
    if node in bucket.expectations then bucket.expectations[node] else map[]
  }

  function Contributed(bucket: JoinBucket, node: string): seq<string> {
    if node in bucket.contributions then bucket.contributions[node] else []
  }

  /** Records how many contributions the join may expect of one activation. */
  function Close(bucket: JoinBucket, source: Activation, expected: int): Result<JoinBucket> {
    var byActivation := Expected(bucket, source.node);
    if source.id in byActivation && byActivation[source.id] != expected then Err(ExpectationChanged(source.id))
    else Ok(bucket.(expectations := bucket.expectations[source.node := byActivation[source.id := expected]]))
  }

  /** The same for every join target in `targets`. */
  function CloseAll(compiled: Compiled, state: RunState, source: Activation, targets: seq<string>,
                    selected: map<string, int>): Result<RunState>
    decreases |targets|
  {
    if targets == [] then Ok(state)
    else if targets[0] !in compiled.joins then CloseAll(compiled, state, source, targets[1..], selected)
    else
      var key := JoinKey(targets[0], NextCorrelation(compiled.backEdges, source.correlation, source.node, targets[0]));
      match Close(BucketAt(state.buckets, key), source, At(selected, targets[0]))
      case Err(error) => Err(error)
      case Ok(bucket) => CloseAll(compiled, state.(buckets := state.buckets[key := bucket]), source,
        targets[1..], selected)
  }

  function CloseJoinExpectations(compiled: Compiled, state: RunState, source: Activation,
                                 selected: map<string, int>): Result<RunState> {
    CloseAll(compiled, state, source, Targets(compiled.edges, source.node), selected)
  }

  function AddContribution(state: RunState, node: string, key: JoinKey, payload: string): RunState {
    var bucket := BucketAt(state.buckets, key);
    state.(buckets := state.buckets[key := bucket.(
      contributions := bucket.contributions[node := Contributed(bucket, node) + [payload]])])
  }

  predicate IsLeast(ids: set<nat>, least: nat) {
    least in ids && forall id :: id in ids ==> least <= id
  }

  lemma {:induction false} HasLeast(ids: set<nat>)
    requires ids != {}
    ensures exists least :: IsLeast(ids, least)
    decreases |ids|
  {
    var some :| some in ids;
    var rest := ids - {some};
    if rest == {} {
      assert ids == {some};
      assert IsLeast(ids, some);
    } else {
      HasLeast(rest);
      var least :| IsLeast(rest, least);
      assert forall id :: id in ids ==> id == some || id in rest;
      assert IsLeast(ids, if some < least then some else least);
    }
  }

  /** The total of the counts. */
  function Sum(counts: map<nat, int>): int
    decreases |counts|
  {
    if counts == map[] then 0
    else
      HasLeast(counts.Keys);
      var id :| IsLeast(counts.Keys, id);
      assert |counts - {id}| < |counts| by {
        assert (counts - {id}).Keys == counts.Keys - {id};
      }
      counts[id] + Sum(counts - {id})
  }

  lemma {:induction false} PositiveSum(counts: map<nat, int>) returns (id: nat)
    requires Sum(counts) > 0
    ensures id in counts && counts[id] > 0
    decreases |counts|
  {
    HasLeast(counts.Keys);
    id :| IsLeast(counts.Keys, id);
    assert (counts - {id}).Keys == counts.Keys - {id};
    if counts[id] <= 0 {
      id := PositiveSum(counts - {id});
    }
  }

  /** All contributions the activations of `source` announced have arrived, and all
      `pending` of them have announced theirs. */
  function SourceReady(bucket: JoinBucket, source: string, pending: int): bool {
    |Expected(bucket, source)| == pending && |Contributed(bucket, source)| == Sum(Expected(bucket, source))
  }

  /** The correlation under which activations of `source` feed the key. */
  function FeedingCorrelation(compiled: Compiled, key: JoinKey, source: string): CorrelationKey {
    if Edge(source, key.target) in compiled.backEdges then key.correlation.(epoch := key.correlation.epoch - 1)
    else key.correlation
  }

  function PendingJoinActivations(compiled: Compiled, state: RunState, key: JoinKey, source: string): int {
    var correlation := FeedingCorrelation(compiled, key, source);
    if correlation in state.correlations then At(state.correlations[correlation], source) else 0
  }

  predicate JoinReady(compiled: Compiled, state: RunState, key: JoinKey) {
    && key in state.buckets
    && Targets(compiled.predecessors, key.target) != []
    && state.buckets[key].contributions != map[]
    && (forall source :: source in Targets(compiled.predecessors, key.target) ==>
          SourceReady(state.buckets[key], source, PendingJoinActivations(compiled, state, key, source)))
  }

  /** Fires a ready join: one activation of its target, and the bucket is gone. */
  function MaterializeJoin(state: RunState, key: JoinKey, input: string): RunState {
    var enqueued := Enqueue(state, key.target, input, None, 0, key.correlation);
    enqueued.(buckets := enqueued.buckets - {key}, joined := state.joined + [Joining(key, state.nextActSeq)])
  }

  // ----- routing -----

  datatype Delivery = Delivery(target: string, payload: Option<string>, iter: bool, replay: bool)

  // An absent payload means the source's own output.
  datatype Dispatch = Dispatch(deliveries: seq<Delivery>, stop: bool, explicit: bool, settle: SettlePolicy)

  predicate UsesOutput(item: Delivery) {
    item.payload.None?
  }

  /** The deliveries that schedule one activation each. */
  function Materialized(compiled: Compiled, deliveries: seq<Delivery>): nat {
    if deliveries == [] then 0
    else
      (if !deliveries[0].iter && deliveries[0].target !in compiled.joins then 1 else 0)
      + Materialized(compiled, deliveries[1..])
  }

  function Iterated(deliveries: seq<Delivery>): nat {
    if deliveries == [] then 0 else (if deliveries[0].iter then 1 else 0) + Iterated(deliveries[1..])
  }

  function Selected(compiled: Compiled, deliveries: seq<Delivery>): map<string, int> {
    if deliveries == [] then map[]
    else
      var last := |deliveries| - 1;
      var counts := Selected(compiled, deliveries[..last]);
      if UsesOutput(deliveries[last])
        && deliveries[last].target in compiled.joins then Bump(counts, deliveries[last].target) else counts
  }

  predicate ValidPolicy(policy: SettlePolicy) {
    policy.Quorum? ==> policy.quorum > 0
  }

  /** A policy's number of successes among `total` branches, if it can be had. */
  function Required(policy: SettlePolicy, total: int): Option<int> {
    match policy
    case All => Some(total)
    case Any => Some(1)
    case Quorum(quorum) => if quorum > total then None else Some(quorum)
  }

  /** Registers the set an activation's branches will belong to; none without branches. */
  function PrepareSourceSet(compiled: Compiled, state: RunState, dispatch: Dispatch): Result<(RunState, Option<nat>)> {
    var count, iters := Materialized(compiled, dispatch.deliveries), Iterated(dispatch.deliveries);
    if count == 0 && iters == 0 then Ok((state, None))
    else if iters == 0 && Required(dispatch.settle, count).None? then Err(BadRoute)
    else
      var created := SourceSet(dispatch.settle, count, [], map[], [], false, false, false, iters, None);
      Ok((state.(nextSetSeq := state.nextSetSeq + 1, sourceSets := state.sourceSets[state.nextSetSeq := created]),
        Some(state.nextSetSeq)))
  }

  function ScheduleIter(compiled: Compiled, state: RunState, source: Activation, item: Delivery, sourceSet: nat,
                        index: nat): Result<RunState> {
    if item.target in compiled.joins then Err(BadRoute)
    else
      var id := if state.nextIterSeq == 0 then 1 else state.nextIterSeq;
      Ok(state.(nextIterSeq := id + 1,
                iterSources := state.iterSources[id := IterSource(id, source.id, item.target, sourceSet, index, 0, None,
                  item.replay, true, None)]))
  }

  function ScheduleDelivery(compiled: Compiled, state: RunState, source: Activation, output: string, item: Delivery,
                            sourceSet: Option<nat>, branchIndex: int, index: nat): Result<RunState> {
    var correlation := NextCorrelation(compiled.backEdges, source.correlation, source.node, item.target);
    if item.target !in Targets(compiled.edges, source.node) then Err(BadRoute)
    else if item.iter then
      if sourceSet.None? then Err(BadRoute) else ScheduleIter(compiled, state, source, item, sourceSet.value, index)
    else if item.target in compiled.joins then
      if !UsesOutput(item) then Err(BadRoute)
      else Ok(AddContribution(state, source.node, JoinKey(item.target, correlation), output))
    else Ok(Enqueue(state, item.target, if UsesOutput(item) then output
    else item.payload.value, sourceSet, branchIndex, correlation))
  }

  /** The deliveries from number `index` on, `branchIndex` branches having been scheduled. */
  function ScheduleDeliveries(compiled: Compiled, state: RunState, source: Activation, output: string,
                              deliveries: seq<Delivery>, sourceSet: Option<nat>, branchIndex: int,
                              index: nat): Result<RunState>
    requires index <= |deliveries|
    decreases |deliveries| - index
  {
    if index == |deliveries| then Ok(state)
    else
      var item := deliveries[index];
      var branches := if item.iter || item.target in compiled.joins then branchIndex else branchIndex + 1;
      match ScheduleDelivery(compiled, state, source, output, item, sourceSet, branchIndex, index)
      case Err(error) => Err(error)
      case Ok(next) => ScheduleDeliveries(compiled, next, source, output, deliveries, sourceSet, branches, index + 1)
  }

  /** Where an activation's output goes when its route does not say. */
  function DefaultDeliveries(targets: seq<string>): seq<Delivery> {
    seq(|targets|, i requires 0 <= i < |targets| => Delivery(targets[i], None, false, false))
  }

  /** Routes an activation's output: schedules its deliveries and closes what joins
      may still expect of it. */
  function Route(compiled: Compiled, state: RunState, source: Activation, output: string,
                 dispatch: Dispatch): Result<RunState> {
    var started := state.(routed := state.routed + [source.id]);
    if !ValidPolicy(dispatch.settle) then Err(BadRoute)
    else if dispatch.stop then
      if source.node !in compiled.exits then Err(BadRoute)
      else CloseJoinExpectations(compiled, started, source, Selected(compiled, dispatch.deliveries))
    else
      var deliveries := if dispatch.explicit then dispatch.deliveries
                        else dispatch.deliveries + DefaultDeliveries(Targets(compiled.edges, source.node));
      match PrepareSourceSet(compiled, started, dispatch.(deliveries := deliveries))
      case Err(error) => Err(error)
      case Ok(prepared) =>
        match ScheduleDeliveries(compiled, prepared.0, source, output, deliveries, prepared.1, 0, 0)
        case Err(error) => Err(error)
        case Ok(scheduled) => CloseJoinExpectations(compiled, scheduled, source, Selected(compiled, deliveries))
  }

  // ----- committing what ran -----

  // What became of a batch item: its result or cause, a retry, and when it completed.
  datatype Ran = Ran(
    activation: Activation, result: NodeResult, cause: Option<Cause>, retry: Option<string>, completion: int)

  function CompleteOne(state: RunState, node: string): RunState {
    state.(completed := Bump(state.completed, node))
  }

  /** Removes a finished activation from the head of the queue. */
  function Finish(state: RunState, ran: Ran): Result<RunState> {
    match RemoveReady(state, ran.activation.id)
    case Err(error) => Err(error)
    case Ok(removed) => FinishActivation(CompleteOne(removed, ran.activation.node), ran.activation.id,
      ran.result, ran.cause)
  }

  /** commitActivation up to the joins that may now be ready. */
  function CommitActivation(compiled: Compiled, state: RunState, ran: Ran, dispatch: Dispatch): Result<RunState> {
    match Finish(state, ran)
    case Err(error) => Err(error)
    case Ok(finished) =>
      if ran.result.skipped then CloseJoinExpectations(compiled, finished, ran.activation, map[])
      else Route(compiled, finished, ran.activation, ran.result.output, dispatch)
  }

  function BranchPhaseOf(ran: Ran): BranchPhase {
    if ran.cause.Some? then (if ran.cause.value.canceled then BranchCanceled else BranchFailed)
    else if ran.result.skipped then BranchSkipped else BranchCompleted
  }

  /** commitBranch: the branch has an outcome; routing waits for the set to settle. */
  function CommitBranch(state: RunState, ran: Ran): Result<RunState> {
    if ran.activation.sourceSet.None? || ran.activation.sourceSet.value !in state.sourceSets then Err(SetMissing)
    else
      var id, group := ran.activation.sourceSet.value, state.sourceSets[ran.activation.sourceSet.value];
      match Finish(state, ran)
      case Err(error) => Err(error)
      case Ok(finished) =>
        var outcome := BranchOutcome(ran.activation, ran.result, ran.cause, BranchPhaseOf(ran), ran.completion, false);
        Ok(finished.(sourceSets :=
          finished.sourceSets[id := group.(outcomes := group.outcomes[ran.activation.id := outcome])]))
  }
}
