/** The scheduler's operations in any order, and what every run of them conserves
    (workflow/scheduler.go, settle.go, iter_source.go, workflow.go). */
module Scheduling {
  import opened Options
  import opened Topology
  import opened RunState
  import opened Joins
  import opened Settle
  import opened Conservation

  // ----- releasing a set -----

  /** The first queued branch of a set that was not selected. */
  function NextUnselected(queue: seq<Activation>, id: nat, selected: seq<nat>): (index: nat)
    ensures index <= |queue|
    ensures index < |queue| ==> queue[index].sourceSet == Some(id) && queue[index].id !in selected
    ensures forall i :: 0 <= i < index ==> queue[i].sourceSet != Some(id) || queue[i].id in selected
  {
    if queue == [] || (queue[0].sourceSet == Some(id) && queue[0].id !in selected) then 0
    else
      var rest := NextUnselected(queue[1..], id, selected);
      assert forall i :: 1 <= i < |queue| ==> queue[i] == queue[1..][i - 1];
      rest + 1
  }

  const CANCELED_BY_RELEASE := Cause("context canceled", true)

  /** Cancels the queued branch at an index of the queue. */
  function CancelAt(state: RunState, id: nat, index: nat): Result<RunState>
    requires id in state.sourceSets && index < |state.queue|
  {
    var item, group := state.queue[index], state.sourceSets[id];
    var removed := state.(queue := Without(state.queue, index), nextCompletion := state.nextCompletion + 1);
    match CancelActivation(removed, item.id, CANCELED_BY_RELEASE)
    case Err(error) => Err(error)
    case Ok(canceled) =>
      var outcome := BranchOutcome(item, NodeResult("", false), Some(CANCELED_BY_RELEASE), BranchCanceled,
        removed.nextCompletion, false);
      Ok(CompleteOne(canceled,
        item.node).(sourceSets := state.sourceSets[id := group.(outcomes := group.outcomes[item.id := outcome])]))
  }

  /** cancelNextQueuedBranch: cancels one branch, if there is one to cancel. */
  function CancelNext(state: RunState, id: nat): Result<RunState>
    requires id in state.sourceSets
  {
    var index := NextUnselected(state.queue, id, state.sourceSets[id].selected);
    if index == |state.queue| then Ok(state) else CancelAt(state, id, index)
  }

  predicate CompletedButUnselected(group: SourceSet, branch: nat) {
    branch in group.outcomes && group.outcomes[branch].phase == BranchCompleted && branch !in group.selected
  }

  function Supersede(state: RunState, id: nat, branch: nat): RunState
    requires id in state.sourceSets && branch in state.sourceSets[id].outcomes
  {
    var group := state.sourceSets[id];
    state.(sourceSets := state.sourceSets[id := group.(
      outcomes := group.outcomes[branch := group.outcomes[branch].(phase := BranchSuperseded)])])
  }

  /** releaseBranch up to its event: routes a selected branch, once. */
  function ReleaseBranch(compiled: Compiled, state: RunState, id: nat, branch: nat,
                         dispatch: Dispatch): Result<RunState>
    requires id in state.sourceSets && branch in state.sourceSets[id].outcomes
  {
    var outcome := state.sourceSets[id].outcomes[branch];
    if outcome.committed then Ok(state)
    else
      match Route(compiled, state, outcome.activation, outcome.result.output, dispatch)
      case Err(error) => Err(error)
      case Ok(routed) =>
        if id !in routed.sourceSets then Err(SetMissing)
        else
          var group := routed.sourceSets[id];
          Ok(routed.(sourceSets :=
            routed.sourceSets[id := group.(outcomes := group.outcomes[branch := outcome.(committed := true)])]))
  }

  /** Each iterator of the set is closed, and no other one is touched. */
  function ClosedFor(sources: map<nat, IterSource>, id: nat): map<nat, IterSource> {
    map iter | iter in sources :: if sources[iter].sourceSet == id then sources[iter].(open := false) else sources[iter]
  }

  function CloseIterSources(state: RunState, id: nat): RunState {
    var closed := state.(iterSources := ClosedFor(state.iterSources, id));
    if id in state.sourceSets then
      closed.(sourceSets := state.sourceSets[id := state.sourceSets[id].(openSources := 0)]) else closed
  }

  /** The start of releasing a set: no more items, and the selection is fixed. */
  function DecideSet(state: RunState, id: nat, selected: seq<nat>): RunState
    requires id in state.sourceSets
  {
    var closed := CloseIterSources(state, id);
    var group := closed.sourceSets[id];
    if group.decided then closed
    else closed.(sourceSets := closed.sourceSets[id := group.(decided := true, selected := selected)])
  }

  function FailSet(state: RunState, id: nat): RunState
    requires id in state.sourceSets
  {
    var closed := CloseIterSources(state, id);
    closed.(sourceSets := closed.sourceSets[id := closed.sourceSets[id].(failed := true)])
  }

  function SettleSet(state: RunState, id: nat): RunState
    requires id in state.sourceSets
  {
    state.(sourceSets := state.sourceSets[id := state.sourceSets[id].(settled := true)])
  }

  // ----- iterators -----

  /** pullIterSource with an item: one more branch, scheduled at once. */
  function PullItem(compiled: Compiled, state: RunState, iter: nat, value: string,
                    cursor: Option<string>): Result<RunState> {
    if iter !in state.iterSources then Err(IteratorFault)
    else
      var source := state.iterSources[iter];
      if source.sourceID !in state.activations || source.sourceSet !in state.sourceSets then Err(IteratorFault)
      else
        var item, group := state.activations[source.sourceID].activation, state.sourceSets[source.sourceSet];
        var expecting :=
          state.(sourceSets := state.sourceSets[source.sourceSet := group.(expected := group.expected + 1)]);
        var enqueued := Enqueue(expecting, source.target, value, Some(source.sourceSet), group.expected,
                                NextCorrelation(compiled.backEdges, item.correlation, item.node, source.target));
        Ok(enqueued.(iterSources := enqueued.iterSources[iter := source.(
             pulled := source.pulled + 1, cursor := if cursor.Some? then cursor else source.cursor)]))
  }

  /** closeIterSource: the iterator is exhausted. */
  function CloseIter(state: RunState, iter: nat): Result<RunState> {
    if iter !in state.iterSources || state.iterSources[iter].sourceSet !in state.sourceSets then Err(IteratorFault)
    else
      var source := state.iterSources[iter];
      var group := state.sourceSets[source.sourceSet];
      if group.openSources <= 0 then Err(IteratorFault)
      else
        Ok(state.(iterSources := state.iterSources[iter := source.(open := false)],
                  sourceSets := state.sourceSets[source.sourceSet := group.(openSources := group.openSources - 1)]))
  }

  /** failIterSource up to its event: an iterator failed, and its set with it. */
  function FailIter(state: RunState, iter: nat, cause: Cause): RunState
    requires iter in state.iterSources && state.iterSources[iter].sourceSet in state.sourceSets
  {
    var failed := FailSetFor(state, state.iterSources[iter].sourceSet, cause);
    failed.(iterSources := failed.iterSources[iter := failed.iterSources[iter].(cause := Some(cause))])
  }

  function FailSetFor(state: RunState, id: nat, cause: Cause): (failed: RunState)
    requires id in state.sourceSets
    ensures failed.iterSources.Keys == state.iterSources.Keys
  {
    var closed := CloseIterSources(state, id);
    closed.(sourceSets := closed.sourceSets[id := closed.sourceSets[id].(failed := true, cause := Some(cause))])
  }

  // ----- one operation -----

  datatype Operation =
    | StartOne(id: nat)
    | CommitStandalone(ran: Ran, dispatch: Dispatch)
    | CommitOne(ran: Ran)
    | RetryOne(id: nat, input: string)
    | InterruptOne(id: nat)
    | ResumeAll(resolved: bool)
    | FireJoin(key: JoinKey, input: string)
    | Decided(group: nat, selected: seq<nat>)
    | FailedSet(group: nat)
    | CancelOne(group: nat)
    | SupersedeOne(group: nat, branch: nat)
    | CloseOne(group: nat, branch: nat)
    | ReleaseOne(group: nat, branch: nat, dispatch: Dispatch)
    | Settled(group: nat)
    | Pulled(iter: nat, value: string, cursor: Option<string>)
    | Exhausted(iter: nat)
    | FailedIter(iter: nat, cause: Cause)
    | Permuted(queue: seq<Activation>)
    | Numbered(completion: int)

  predicate Releasing(state: RunState, id: nat) {
    id in state.sourceSets && (state.sourceSets[id].decided || state.sourceSets[id].failed)
  }

  /** No join waits for a branch that was not selected. */
  ghost predicate UnselectedTold(compiled: Compiled, state: RunState, id: nat)
    requires id in state.sourceSets
  {
    var group := state.sourceSets[id];
    forall branch :: branch in group.branches && branch !in group.selected ==>
      branch in group.outcomes && AllTold(compiled, state, group.outcomes[branch].activation)
  }

  predicate BranchAtHead(state: RunState, ran: Ran) {
    state.queue != [] && ran.activation == state.queue[0] && ran.activation.sourceSet.Some?
  }

  /** A completion number that was drawn, and that no outcome has yet. */
  ghost predicate Unused(state: RunState, completion: int) {
    && completion <= state.nextCompletion
    && (forall id, branch :: id in state.sourceSets && branch in state.sourceSets[id].outcomes ==>
          state.sourceSets[id].outcomes[branch].completion != completion)
  }

  /** When the scheduler performs an operation. */
  ghost predicate Enabled(compiled: Compiled, state: RunState, operation: Operation) {
    match operation
    case CommitStandalone(ran, _) => state.queue != [] && ran.activation == state.queue[0]
      && ran.activation.sourceSet.None? && ran.cause.None?
    case CommitOne(ran) => BranchAtHead(state, ran) && Unused(state, ran.completion)
    case FireJoin(key, _) => JoinReady(compiled, state, key)
    case Decided(id, selected) =>
      && id in state.sourceSets && !state.sourceSets[id].decided && !state.sourceSets[id].failed
      && !state.sourceSets[id].settled
      && exists ranking ::
           Successes(state.sourceSets[id], ranking)
             && Decide(state.sourceSets[id], ranking) == Some(Decision(selected, false, true))
    case FailedSet(id) => id in state.sourceSets && !state.sourceSets[id].decided
    case CancelOne(id) => Releasing(state, id)
    case SupersedeOne(id, branch) => Releasing(state, id) && CompletedButUnselected(state.sourceSets[id], branch)
    case CloseOne(id, branch) =>
      && Releasing(state, id) && branch in state.sourceSets[id].branches && branch !in state.sourceSets[id].selected
      && branch in state.sourceSets[id].outcomes
    case ReleaseOne(id, branch, _) => Releasing(state, id) && branch in state.sourceSets[id].selected
    case Settled(id) =>
      && id in state.sourceSets && state.sourceSets[id].decided && FullyDealt(state.sourceSets[id])
      && UnselectedTold(compiled, state, id)
    case Pulled(iter, _, _) => iter in state.iterSources && state.iterSources[iter].open
    case Exhausted(iter) => iter in state.iterSources && state.iterSources[iter].open
    case FailedIter(iter, _) => iter in state.iterSources && state.iterSources[iter].open
    case Permuted(queue) => multiset(queue) == multiset(state.queue)
    case Numbered(completion) => completion >= state.nextCompletion
    case _ => true
  }

  ghost function Perform(compiled: Compiled, state: RunState, operation: Operation): Result<RunState>
    requires Conserved(compiled, state) && Enabled(compiled, state, operation)
  {
    match operation
    case StartOne(id) => StartActivation(state, id)
    case CommitStandalone(ran, dispatch) => CommitActivation(compiled, state, ran, dispatch)
    case CommitOne(ran) => CommitBranch(state, ran)
    case RetryOne(id, input) => RetryActivation(state, id, input)
    case InterruptOne(id) => InterruptActivation(state, id)
    case ResumeAll(resolved) => Ok(PrepareResume(state, resolved))
    case FireJoin(key, input) => Ok(MaterializeJoin(state, key, input))
    case Decided(id, selected) => Ok(DecideSet(state, id, selected))
    case FailedSet(id) => Ok(FailSet(state, id))
    case CancelOne(id) => CancelNext(state, id)
    case SupersedeOne(id, branch) => Ok(Supersede(state, id, branch))
    case CloseOne(id, branch) => CloseJoinExpectations(compiled, state,
      state.sourceSets[id].outcomes[branch].activation, map[])
    case ReleaseOne(id, branch, dispatch) =>
      if branch in state.sourceSets[id].outcomes then ReleaseBranch(compiled, state, id, branch, dispatch)
      else Err(OutcomeMissing(branch))
    case Settled(id) => Ok(SettleSet(state, id))
    case Pulled(iter, value, cursor) => PullItem(compiled, state, iter, value, cursor)
    case Exhausted(iter) => CloseIter(state, iter)
    case FailedIter(iter, cause) =>
      assert IterAt(compiled, state, state.iterSources[iter]);
      Ok(FailIter(state, iter, cause))
    case Permuted(queue) => Ok(state.(queue := queue))
    case Numbered(completion) => Ok(state.(nextCompletion := completion))
  }
}
