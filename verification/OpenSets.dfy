/** Sets are opened by routing only, and open: everything is still to come of them
    (workflow/settle.go, workflow/workflow.go). */
module OpenSets {
  import opened Options
  import opened Topology
  import opened RunState
  import opened Joins
  import opened Settle
  import opened RoutingSafety

  /** No branch has an outcome yet, and those to come can still satisfy the policy. */
  ghost predicate Unstarted(group: SourceSet) {
    && group.outcomes == map[] && Undecided(group) && ValidPolicy(group.policy)
    && (group.openSources > 0 || (group.expected > 0 && Required(group.policy, group.expected).Some?))
  }

  /** Neither success nor failure of the set is certain. */
  ghost predicate Undetermined(group: SourceSet) {
    Undecided(group) && !CertainlySatisfied(group) && !NeverSatisfied(group)
  }

  lemma UnstartedIsUndetermined(group: SourceSet)
    requires Counted(group) && Unstarted(group)
    ensures Undetermined(group)
  {
    OutstandingCount(group);
    if group.policy == All {
      NeverIffFailure(group);
      CertainIffWhole(group);
    } else {
      CertainIffEnough(group);
      NeverIffTooFew(group);
      assert Succeeded(group) == {};
    }
  }

  /** What determines a set is not how many branches are scheduled for it while it is open. */
  lemma GrowingStaysUndetermined(group: SourceSet, grown: SourceSet)
    requires Counted(group) && Counted(grown) && ValidPolicy(group.policy) && Undetermined(group)
    requires group.openSources > 0
    requires grown == group.(expected := grown.expected, branches := grown.branches)
    ensures Undetermined(grown)
  {
    assert Succeeded(grown) == Succeeded(group) && (HasFailure(grown) <==> HasFailure(group));
    if group.policy == All {
      NeverIffFailure(group);
      NeverIffFailure(grown);
      CertainIffWhole(grown);
    } else {
      CertainIffEnough(group);
      CertainIffEnough(grown);
      NeverIffTooFew(grown);
    }
  }

  ghost predicate OnlyUnstarted(before: RunState, after: RunState) {
    forall id :: id in after.sourceSets && id !in before.sourceSets ==> Unstarted(after.sourceSets[id])
  }

  /** Sets got branches, and nothing else happened to them. */
  ghost predicate OnlyBranches(before: RunState, after: RunState) {
    && after.sourceSets.Keys == before.sourceSets.Keys
    && (forall id :: id in before.sourceSets ==>
          after.sourceSets[id] == before.sourceSets[id].(branches := after.sourceSets[id].branches))
  }

  lemma DeliveryOnlyBranches(compiled: Compiled, state: RunState, source: Activation, output: string, item: Delivery,
                             id: Option<nat>, branchIndex: int, index: nat)
    requires ScheduleDelivery(compiled, state, source, output, item, id, branchIndex, index).Ok?
    ensures OnlyBranches(state, ScheduleDelivery(compiled, state, source, output, item, id, branchIndex, index).value)
  {
    hide NextCorrelation, AddContribution, ScheduleIter, Enqueue;
    var correlation := NextCorrelation(compiled.backEdges, source.correlation, source.node, item.target);
    if item.iter {
      IterOnlyBranches(compiled, state, source, item, id.value, index);
    } else if item.target in compiled.joins {
      ContributionOnlyBranches(state, source.node, JoinKey(item.target, correlation), output);
    } else {
      EnqueueOnlyBranches(state, item.target, if UsesOutput(item) then output else item.payload.value, id, branchIndex,
                          correlation);
    }
  }

  lemma IterOnlyBranches(compiled: Compiled, state: RunState, source: Activation, item: Delivery, id: nat, index: nat)
    requires ScheduleIter(compiled, state, source, item, id, index).Ok?
    ensures OnlyBranches(state, ScheduleIter(compiled, state, source, item, id, index).value)
  {
  }

  lemma ContributionOnlyBranches(state: RunState, node: string, key: JoinKey, payload: string)
    ensures OnlyBranches(state, AddContribution(state, node, key, payload))
  {
  }

  lemma EnqueueOnlyBranches(state: RunState, target: string, input: string, id: Option<nat>, branchIndex: int,
                            correlation: CorrelationKey)
    ensures OnlyBranches(state, Enqueue(state, target, input, id, branchIndex, correlation))
  {
  }

  lemma {:induction false} DeliveriesOnlyBranches(compiled: Compiled, state: RunState, source: Activation,
                                                  output: string, deliveries: seq<Delivery>, id: Option<nat>,
                                                  branchIndex: int, index: nat)
    requires index <= |deliveries|
    requires ScheduleDeliveries(compiled, state, source, output, deliveries, id, branchIndex, index).Ok?
    ensures OnlyBranches(state,
      ScheduleDeliveries(compiled, state, source, output, deliveries, id, branchIndex, index).value)
    decreases |deliveries| - index
  {
    hide ScheduleDelivery;
    if index < |deliveries| {
      var item := deliveries[index];
      var branches := if item.iter || item.target in compiled.joins then branchIndex else branchIndex + 1;
      DeliveryOnlyBranches(compiled, state, source, output, item, id, branchIndex, index);
      var next := ScheduleDelivery(compiled, state, source, output, item, id, branchIndex, index).value;
      DeliveriesOnlyBranches(compiled, next, source, output, deliveries, id, branches, index + 1);
    }
  }

  lemma PreparedIsUnstarted(compiled: Compiled, state: RunState, dispatch: Dispatch)
    requires PrepareSourceSet(compiled, state, dispatch).Ok? && ValidPolicy(dispatch.settle)
    ensures OnlyUnstarted(state, PrepareSourceSet(compiled, state, dispatch).value.0)
  {
    hide Materialized, Iterated;
  }

  /** A set that routing opens is unstarted. */
  lemma RouteOpens(compiled: Compiled, state: RunState, source: Activation, output: string, dispatch: Dispatch)
    requires Route(compiled, state, source, output, dispatch).Ok?
    ensures OnlyUnstarted(state, Route(compiled, state, source, output, dispatch).value)
  {
    hide ScheduleDeliveries, CloseAll, PrepareSourceSet, Selected, Unstarted;
    var started := state.(routed := state.routed + [source.id]);
    var targets := Targets(compiled.edges, source.node);
    if dispatch.stop {
      ClosingOnlyBuckets(compiled, started, source, targets, Selected(compiled, dispatch.deliveries));
    } else {
      var deliveries := if dispatch.explicit then dispatch.deliveries
        else dispatch.deliveries + DefaultDeliveries(targets);
      var prepared := PrepareSourceSet(compiled, started, dispatch.(deliveries := deliveries)).value;
      PreparedIsUnstarted(compiled, started, dispatch.(deliveries := deliveries));
      DeliveriesOnlyBranches(compiled, prepared.0, source, output, deliveries, prepared.1, 0, 0);
      var scheduled := ScheduleDeliveries(compiled, prepared.0, source, output, deliveries, prepared.1, 0, 0).value;
      BranchesStayUnstarted(started, prepared.0, scheduled);
      ClosingOnlyBuckets(compiled, scheduled, source, targets, Selected(compiled, deliveries));
    }
  }

  lemma BranchesStayUnstarted(before: RunState, prepared: RunState, scheduled: RunState)
    requires OnlyUnstarted(before, prepared) && OnlyBranches(prepared, scheduled)
    ensures OnlyUnstarted(before, scheduled)
  {
  }

  /** The set a routing opens has the policy of the dispatch, expects the branches it
      schedules, and waits for the iterators it opens. */
  lemma RouteOpensSet(compiled: Compiled, state: RunState, source: Activation, output: string, dispatch: Dispatch)
    requires Route(compiled, state, source, output, dispatch).Ok? && !dispatch.stop
    requires var deliveries := DeliveriesOf(compiled, source.node, dispatch);
      Materialized(compiled, deliveries) > 0 || Iterated(deliveries) > 0
    ensures var after, deliveries, id :=
              Route(compiled, state, source, output, dispatch).value, DeliveriesOf(compiled, source.node, dispatch),
              state.nextSetSeq;
            && id in after.sourceSets && after.nextSetSeq == id + 1
            && after.sourceSets[id]
                 == SourceSet(dispatch.settle, Materialized(compiled, deliveries), after.sourceSets[id].branches, map[],
                              [], false, false, false, Iterated(deliveries), None)
  {
    hide ScheduleDeliveries, CloseAll, Selected, Materialized, Iterated;
    var targets, deliveries := Targets(compiled.edges, source.node), DeliveriesOf(compiled, source.node, dispatch);
    var started := state.(routed := state.routed + [source.id]);
    var prepared := PrepareSourceSet(compiled, started, dispatch.(deliveries := deliveries)).value;
    DeliveriesOnlyBranches(compiled, prepared.0, source, output, deliveries, prepared.1, 0, 0);
    DeliveriesKeepSetSeq(compiled, prepared.0, source, output, deliveries, prepared.1, 0, 0);
    var scheduled := ScheduleDeliveries(compiled, prepared.0, source, output, deliveries, prepared.1, 0, 0).value;
    ClosingOnlyBuckets(compiled, scheduled, source, targets, Selected(compiled, deliveries));
  }

  lemma {:induction false} DeliveriesKeepSetSeq(compiled: Compiled, state: RunState, source: Activation, output: string,
                                                deliveries: seq<Delivery>, id: Option<nat>, branchIndex: int,
                                                index: nat)
    requires index <= |deliveries|
    requires ScheduleDeliveries(compiled, state, source, output, deliveries, id, branchIndex, index).Ok?
    ensures ScheduleDeliveries(compiled, state, source, output, deliveries, id, branchIndex, index).value.nextSetSeq
         == state.nextSetSeq
    decreases |deliveries| - index
  {
    if index < |deliveries| {
      var item := deliveries[index];
      var branches := if item.iter || item.target in compiled.joins then branchIndex else branchIndex + 1;
      var next := ScheduleDelivery(compiled, state, source, output, item, id, branchIndex, index).value;
      DeliveryKeepsSetSeq(compiled, state, source, output, item, id, branchIndex, index);
      hide ScheduleDelivery;
      DeliveriesKeepSetSeq(compiled, next, source, output, deliveries, id, branches, index + 1);
    }
  }

  lemma DeliveryKeepsSetSeq(compiled: Compiled, state: RunState, source: Activation, output: string, item: Delivery,
                            id: Option<nat>, branchIndex: int, index: nat)
    requires ScheduleDelivery(compiled, state, source, output, item, id, branchIndex, index).Ok?
    ensures ScheduleDelivery(compiled, state, source, output, item, id, branchIndex, index).value.nextSetSeq
         == state.nextSetSeq
  {
    hide NextCorrelation, Targets;
  }
}
