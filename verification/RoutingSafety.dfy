/** Routing an activation conserves the scheduler's state: the set it fans out to
    gets exactly the branches and iterators it was promised. */
module RoutingSafety {
  import opened Options
  import opened Topology
  import opened RunState
  import opened Joins
  import opened Conservation
  import opened SchedulingSafety

  /** A state in the middle of routing: the set being built is still owed branches
      and iterators. */
  ghost predicate Building(compiled: Compiled, state: RunState, id: Option<nat>, owed: nat, iters: nat) {
    && QueueSound(state) && SetsSound(state, id, owed) && ItersSound(compiled, state, id, iters)
    && (match id
        case None => owed == 0 && iters == 0
        case Some(set_) => set_ in state.sourceSets && Undecided(state.sourceSets[set_]))
  }

  predicate Undecided(group: SourceSet) {
    !group.decided && !group.failed && !group.settled
  }

  ghost predicate OwnIDs(iterSources: map<nat, IterSource>) {
    forall iter :: iter in iterSources ==> iterSources[iter].id == iter
  }

  /** What there was is unchanged; what is new has not run yet. */
  ghost predicate Spreads(before: RunState, after: RunState, except: Option<nat>) {
    && (forall id :: id in before.activations ==>
          id in after.activations && after.activations[id] == before.activations[id])
    && (forall id :: id in after.activations && id !in before.activations ==>
          after.activations[id] == Tracked(after.activations[id].activation))
    && after.nodeVersions == before.nodeVersions && after.contextRevision == before.contextRevision
    && after.nextSetSeq >= before.nextSetSeq
    && (OwnIDs(before.iterSources) ==> OwnIDs(after.iterSources))
    && (forall id :: id in before.sourceSets && except != Some(id) ==>
          id in after.sourceSets && after.sourceSets[id] == before.sourceSets[id])
  }

  function BranchesOf(state: RunState, id: Option<nat>): int {
    if id.Some? && id.value in state.sourceSets then |state.sourceSets[id.value].branches| else 0
  }

  // ----- one delivery -----

  lemma EnqueueBuilds(compiled: Compiled, state: RunState, target: string, input: string, id: Option<nat>,
                      correlation: CorrelationKey, owed: nat, iters: nat)
    requires Building(compiled, state, id, owed, iters) && id.Some? && owed > 0
    ensures var after := Enqueue(state, target, input, id, BranchesOf(state, id), correlation);
            && Building(compiled, after, id, owed - 1, iters) && Spreads(state, after, id)
            && BranchesOf(after, id) == BranchesOf(state, id) + 1
  {
    hide SetSound, Bump;
    var group := state.sourceSets[id.value];
    var item := Activation(state.nextActSeq, target, input, id, |group.branches|, correlation);
    var after := Enqueue(state, target, input, id, |group.branches|, correlation);
    hide QueueSound, SetsSound, ItersSound, Enqueue, Spreads;
    EnqueueKeepsQueue(state, target, input, id, |group.branches|, correlation);
    EnqueuedInto(state, target, input, id.value, correlation);
    EnqueueBuildsSets(state, id.value, item, owed, after);
    ItersStay(compiled, state, after, id, iters);
    EnqueueSpreads(state, id.value, item, after);
  }

  lemma EnqueuedInto(state: RunState, target: string, input: string, id: nat, correlation: CorrelationKey)
    requires QueueSound(state) && id in state.sourceSets
    ensures var group := state.sourceSets[id];
            var item := Activation(state.nextActSeq, target, input, Some(id), |group.branches|, correlation);
            var after := Enqueue(state, target, input, Some(id), |group.branches|, correlation);
            && item.id !in state.activations && after.activations == state.activations[item.id := Tracked(item)]
            && after.sourceSets == state.sourceSets[id := group.(branches := group.branches + [item.id])]
            && after.nextSetSeq == state.nextSetSeq && after.iterSources == state.iterSources
            && after.nextIterSeq == state.nextIterSeq
            && after.nodeVersions == state.nodeVersions && after.contextRevision == state.contextRevision
  {
  }

  lemma EnqueueSpreads(state: RunState, id: nat, item: Activation, after: RunState)
    requires item.id !in state.activations && after.activations == state.activations[item.id := Tracked(item)]
    requires id in state.sourceSets && id in after.sourceSets
    requires after.sourceSets == state.sourceSets[id := after.sourceSets[id]]
    requires after.nextSetSeq == state.nextSetSeq && after.iterSources == state.iterSources
    requires after.nodeVersions == state.nodeVersions && after.contextRevision == state.contextRevision
    ensures Spreads(state, after, Some(id))
  {
  }

  lemma EnqueueBuildsSets(state: RunState, id: nat, item: Activation, owed: nat, after: RunState)
    requires SetsSound(state, Some(id), owed) && id in state.sourceSets && Undecided(state.sourceSets[id]) && owed > 0
    requires item.id !in state.activations && after.activations == state.activations[item.id := Tracked(item)]
    requires item.sourceSet == Some(id) && item.branchIndex == |state.sourceSets[id].branches|
    requires after.sourceSets
      == state.sourceSets[id := state.sourceSets[id].(branches := state.sourceSets[id].branches + [item.id])]
    requires after.nextSetSeq == state.nextSetSeq
    ensures SetsSound(after, Some(id), owed - 1)
  {
    var group := state.sourceSets[id];
    assert SetSound(state.activations, id, group, owed);
    BranchAdded(state.activations, after.activations, id, group, item, owed);
    hide SetSound, SetsSound;
    GroupKeepsSets(state, after, id, Some(id), owed, owed - 1);
  }

  lemma StandaloneConserves(compiled: Compiled, state: RunState, target: string, input: string,
                            correlation: CorrelationKey)
    requires Building(compiled, state, None, 0, 0)
    ensures var after := Enqueue(state, target, input, None, 0, correlation);
            Building(compiled, after, None, 0, 0) && Spreads(state, after, None)
  {
    var item := Activation(state.nextActSeq, target, input, None, 0, correlation);
    var after := Enqueue(state, target, input, None, 0, correlation);
    hide QueueSound, SetsSound, ItersSound, Enqueue;
    EnqueueKeepsQueue(state, target, input, None, 0, correlation);
    EnqueuedAlone(state, target, input, correlation);
    SameBranchesKeepSets(state, after, None, 0);
    ItersStay(compiled, state, after, None, 0);
  }

  lemma EnqueuedAlone(state: RunState, target: string, input: string, correlation: CorrelationKey)
    requires QueueSound(state)
    ensures var item := Activation(state.nextActSeq, target, input, None, 0, correlation);
            var after := Enqueue(state, target, input, None, 0, correlation);
            && item.id !in state.activations && after.activations == state.activations[item.id := Tracked(item)]
            && after.sourceSets == state.sourceSets && after.nextSetSeq == state.nextSetSeq
            && after.iterSources == state.iterSources && after.nextIterSeq == state.nextIterSeq
            && after.nodeVersions == state.nodeVersions && after.contextRevision == state.contextRevision
  {
  }

  lemma OneMoreIter(iterSources: map<nat, IterSource>, iter: nat, source: IterSource, id: nat)
    requires iter !in iterSources && source.open
    ensures |OpenIters(iterSources[iter := source], id)|
      == |OpenIters(iterSources, id)| + (if source.sourceSet == id then 1 else 0)
  {
    if source.sourceSet == id {
      assert OpenIters(iterSources[iter := source], id) == OpenIters(iterSources, id) + {iter};
    } else {
      assert OpenIters(iterSources[iter := source], id) == OpenIters(iterSources, id);
    }
  }

  lemma IterBuilds(compiled: Compiled, state: RunState, source: Activation, item: Delivery, id: nat, index: nat,
                   owed: nat, iters: nat)
    requires Building(compiled, state, Some(id), owed, iters) && iters > 0 && state.nextIterSeq > 0
    requires source.id in state.activations
    requires ScheduleIter(compiled, state, source, item, id, index).Ok?
    ensures var after := ScheduleIter(compiled, state, source, item, id, index).value;
            && Building(compiled, after, Some(id), owed, iters - 1) && Spreads(state, after, Some(id))
            && after.nextIterSeq > 0
            && BranchesOf(after, Some(id)) == BranchesOf(state, Some(id))
  {
    var after, iter := ScheduleIter(compiled, state, source, item, id, index).value, state.nextIterSeq;
    hide QueueSound, SetsSound, ItersSound, Spreads;
    SameQueue(state, after);
    SameSets(state, after, Some(id), owed);
    IterSpreads(compiled, state, source, item, id, index);
    IterOpened(compiled, state, iter, after.iterSources[iter], id, iters, after);
  }

  lemma IterSpreads(compiled: Compiled, state: RunState, source: Activation, item: Delivery, id: nat, index: nat)
    requires ScheduleIter(compiled, state, source, item, id, index).Ok?
    ensures Spreads(state, ScheduleIter(compiled, state, source, item, id, index).value, Some(id))
  {
  }

  lemma IterOpened(compiled: Compiled, state: RunState, iter: nat, source: IterSource, id: nat, iters: nat,
                   after: RunState)
    requires ItersSound(compiled, state, Some(id), iters) && iters > 0 && iter == state.nextIterSeq && source.open
    requires source.sourceSet == id
    requires id in state.sourceSets && Undecided(state.sourceSets[id]) && source.sourceID in state.activations
    requires source.target !in compiled.joins
    requires after == state.(nextIterSeq := iter + 1, iterSources := state.iterSources[iter := source])
    ensures ItersSound(compiled, after, Some(id), iters - 1) && iter !in state.iterSources
  {
    assert iter !in state.iterSources;
    forall other | other in after.sourceSets
      ensures after.sourceSets[other].openSources
        == |OpenIters(after.iterSources, other)| + (if id == other then iters - 1 else 0)
    {
      OneMoreIter(state.iterSources, iter, after.iterSources[iter], other);
    }
    forall other | other in after.iterSources
      ensures other < after.nextIterSeq && IterAt(compiled, after, after.iterSources[other])
    {
      if other != iter {
        assert IterAt(compiled, state, state.iterSources[other]);
      }
    }
  }

  /** A contribution changes buckets only. */
  lemma ContributionBuilds(compiled: Compiled, state: RunState, node: string, key: JoinKey, payload: string,
                           id: Option<nat>, owed: nat, iters: nat)
    requires Building(compiled, state, id, owed, iters)
    ensures var after := AddContribution(state, node, key, payload);
            Building(compiled, after, id, owed, iters) && Spreads(state, after, id)
              && BranchesOf(after, id) == BranchesOf(state, id)
  {
    BucketsDoNotMatter(compiled, state, AddContribution(state, node, key, payload).buckets, state.joined, state.routed,
                       id, owed, iters);
  }

  lemma BucketsDoNotMatter(compiled: Compiled, state: RunState, buckets: map<JoinKey, JoinBucket>, joined: seq<Joining>,
                           routed: seq<nat>, id: Option<nat>, owed: nat, iters: nat)
    requires Building(compiled, state, id, owed, iters)
    ensures Building(compiled, state.(buckets := buckets, joined := joined, routed := routed), id, owed, iters)
  {
    var after := state.(buckets := buckets, joined := joined, routed := routed);
    hide QueueSound, SetsSound;
    SameQueue(state, after);
    SameSets(state, after, id, owed);
    ItersStay(compiled, state, after, id, iters);
  }

  // ----- all deliveries -----

  /** What a delivery still to be made will need of the set being built. */
  function Owing(compiled: Compiled, item: Delivery): nat {
    if !item.iter && item.target !in compiled.joins then 1 else 0
  }

  function OwingIter(item: Delivery): nat {
    if item.iter then 1 else 0
  }

  lemma DeliveryBuilds(compiled: Compiled, state: RunState, source: Activation, output: string, item: Delivery,
                       id: Option<nat>, index: nat, owed: nat, iters: nat)
    requires Building(compiled, state, id, owed + Owing(compiled, item), iters + OwingIter(item))
    requires source.id in state.activations && state.nextIterSeq > 0
    requires ScheduleDelivery(compiled, state, source, output, item, id, BranchesOf(state, id), index).Ok?
    ensures var after :=
      ScheduleDelivery(compiled, state, source, output, item, id, BranchesOf(state, id), index).value;
            && Building(compiled, after, id, owed, iters) && Spreads(state, after, id) && after.nextIterSeq > 0
            && BranchesOf(after, id) == BranchesOf(state, id) + Owing(compiled, item)
  {
    var correlation := NextCorrelation(compiled.backEdges, source.correlation, source.node, item.target);
    hide QueueSound, SetsSound, ItersSound, Spreads, Enqueue, ScheduleIter, AddContribution, BranchesOf;
    if item.iter {
      IterBuilds(compiled, state, source, item, id.value, index, owed, iters + 1);
    } else if item.target in compiled.joins {
      ContributionBuilds(compiled, state, source.node, JoinKey(item.target, correlation), output, id, owed, iters);
      KeepsIterSeq(state, source.node, JoinKey(item.target, correlation), output);
    } else {
      EnqueueBuilds(compiled, state, item.target, if UsesOutput(item) then output else item.payload.value, id,
                    correlation, owed + 1, iters);
      EnqueueKeepsIterSeq(state, item.target, if UsesOutput(item) then output else item.payload.value, id,
                          BranchesOf(state, id), correlation);
    }
  }

  lemma KeepsIterSeq(state: RunState, node: string, key: JoinKey, payload: string)
    ensures AddContribution(state, node, key, payload).nextIterSeq == state.nextIterSeq
  {
  }

  lemma EnqueueKeepsIterSeq(state: RunState, target: string, input: string, id: Option<nat>, branchIndex: int,
                            correlation: CorrelationKey)
    ensures Enqueue(state, target, input, id, branchIndex, correlation).nextIterSeq == state.nextIterSeq
  {
  }

  lemma SpreadsOn(first: RunState, second: RunState, third: RunState, except: Option<nat>)
    requires Spreads(first, second, except) && Spreads(second, third, except)
    ensures Spreads(first, third, except)
  {
  }

  /** The deliveries from one on make up exactly what the set is still owed. */
  lemma {:induction false} DeliveriesBuild(compiled: Compiled, state: RunState, source: Activation, output: string,
                                           deliveries: seq<Delivery>, id: Option<nat>, index: nat)
    requires index <= |deliveries|
    requires Building(compiled, state, id, Materialized(compiled, deliveries[index..]), Iterated(deliveries[index..]))
    requires source.id in state.activations && state.nextIterSeq > 0
    requires ScheduleDeliveries(compiled, state, source, output, deliveries, id, BranchesOf(state, id), index).Ok?
    ensures var after :=
      ScheduleDeliveries(compiled, state, source, output, deliveries, id, BranchesOf(state, id), index).value;
            Building(compiled, after, id, 0, 0) && Spreads(state, after, id) && after.nextIterSeq > 0
    decreases |deliveries| - index
  {
    hide Building, ScheduleDelivery, BranchesOf;
    if index < |deliveries| {
      var item := deliveries[index];
      var next := ScheduleDelivery(compiled, state, source, output, item, id, BranchesOf(state, id), index).value;
      assert deliveries[index..][0] == item && deliveries[index..][1..] == deliveries[index + 1..];
      DeliveryBuilds(compiled, state, source, output, item, id, index, Materialized(compiled, deliveries[index + 1..]),
                     Iterated(deliveries[index + 1..]));
      DeliveriesBuild(compiled, next, source, output, deliveries, id, index + 1);
      var after := ScheduleDeliveries(compiled, state, source, output, deliveries, id, BranchesOf(state, id),
        index).value;
      SpreadsOn(state, next, after, id);
    } else {
      assert deliveries[index..] == [];
    }
  }

  // ----- routing as a whole -----

  /** A new set is owed all the branches and iterators of its dispatch. */
  lemma PreparedBuilds(compiled: Compiled, state: RunState, dispatch: Dispatch)
    requires Building(compiled, state, None, 0, 0) && PrepareSourceSet(compiled, state, dispatch).Ok?
    requires ValidPolicy(dispatch.settle)
    ensures var prepared := PrepareSourceSet(compiled, state, dispatch).value;
            && Building(compiled, prepared.0, prepared.1, Materialized(compiled, dispatch.deliveries),
                 Iterated(dispatch.deliveries))
            && Spreads(state, prepared.0, None) && BranchesOf(prepared.0, prepared.1) == 0
            && (prepared.1.Some? ==> prepared.1.value !in state.sourceSets)
            && prepared.0.nextIterSeq == state.nextIterSeq && prepared.0.activations == state.activations
  {
    hide Spreads;
    var prepared := PrepareSourceSet(compiled, state, dispatch).value;
    PreparedSpreads(compiled, state, dispatch);
    if prepared.1.Some? {
      var id, after := state.nextSetSeq, prepared.0;
      var count, iters := Materialized(compiled, dispatch.deliveries), Iterated(dispatch.deliveries);
      FreshSet(state);
      hide QueueSound, SetsSound, ItersSound, Materialized, Iterated;
      SameQueue(state, after);
      NewSetIsSound(state, id, after.sourceSets[id], count, after);
      NewSetHasNoIters(compiled, state, id, after, iters);
    }
  }

  lemma PreparedSpreads(compiled: Compiled, state: RunState, dispatch: Dispatch)
    requires SetsSound(state, None, 0) && PrepareSourceSet(compiled, state, dispatch).Ok?
    ensures Spreads(state, PrepareSourceSet(compiled, state, dispatch).value.0, None)
  {
    hide SetsSound, Materialized, Iterated;
    FreshSet(state);
  }

  lemma FreshSet(state: RunState)
    requires SetsSound(state, None, 0)
    ensures state.nextSetSeq !in state.sourceSets
  {
    hide SetSound;
  }

  lemma NewSetIsSound(state: RunState, id: nat, group: SourceSet, count: nat, after: RunState)
    requires SetsSound(state, None, 0) && id !in state.sourceSets && after.activations == state.activations
    requires after.sourceSets == state.sourceSets[id := group] && after.nextSetSeq == id + 1 > state.nextSetSeq
    requires ValidPolicy(group.policy) && group.branches == []
    requires group.outcomes == map[] && group.selected == [] && Undecided(group) && group.expected == count
    ensures SetsSound(after, Some(id), count)
  {
    forall other | other in after.sourceSets
      ensures SetSound(after.activations, other, after.sourceSets[other], if id == other then count else 0)
    {
      if other != id {
        assert SetSound(state.activations, other, state.sourceSets[other], 0);
      }
    }
  }

  lemma NewSetHasNoIters(compiled: Compiled, state: RunState, id: nat, after: RunState, iters: nat)
    requires ItersSound(compiled, state, None, 0) && id !in state.sourceSets
    requires after == state.(nextSetSeq := after.nextSetSeq, sourceSets := after.sourceSets)
    requires id in after.sourceSets && after.sourceSets == state.sourceSets[id := after.sourceSets[id]]
    requires after.sourceSets[id].openSources == iters
    ensures ItersSound(compiled, after, Some(id), iters)
  {
    forall iter | iter in after.iterSources
      ensures IterAt(compiled, after, after.iterSources[iter])
    {
      assert IterAt(compiled, state, state.iterSources[iter]);
    }
    assert forall iter :: iter in state.iterSources ==> IterAt(compiled, state, state.iterSources[iter]);
    assert OpenIters(after.iterSources, id) == {};
  }

  /** Once nothing is owed any more, nobody is being built. */
  lemma Built(compiled: Compiled, state: RunState, id: Option<nat>)
    requires Building(compiled, state, id, 0, 0)
    ensures Building(compiled, state, None, 0, 0)
  {
    forall other | other in state.sourceSets
      ensures SetSound(state.activations, other, state.sourceSets[other], 0)
    {
      assert SetSound(state.activations, other, state.sourceSets[other], if id == Some(other) then 0 else 0);
    }
  }

  lemma ClosingOnlyBuckets(compiled: Compiled, state: RunState, source: Activation, targets: seq<string>,
                           selected: map<string, int>)
    requires CloseAll(compiled, state, source, targets, selected).Ok?
    ensures var after := CloseAll(compiled, state, source, targets, selected).value;
      after == state.(buckets := after.buckets)
    decreases |targets|
  {
  }

  /** Routing adds what the dispatch asks for and touches nothing there was. */
  lemma RouteBuilds(compiled: Compiled, state: RunState, source: Activation, output: string, dispatch: Dispatch)
    requires Building(compiled, state, None, 0, 0) && state.nextIterSeq > 0 && source.id in state.activations
    requires Route(compiled, state, source, output, dispatch).Ok?
    ensures var after := Route(compiled, state, source, output, dispatch).value;
            Building(compiled, after, None, 0, 0) && Spreads(state, after, None) && after.nextIterSeq > 0
  {
    hide Building, Spreads, ScheduleDeliveries, CloseAll, PrepareSourceSet, Selected;
    var started := state.(routed := state.routed + [source.id]);
    var after := Route(compiled, state, source, output, dispatch).value;
    BucketsDoNotMatter(compiled, state, state.buckets, state.joined, started.routed, None, 0, 0);
    assert started == state.(buckets := state.buckets, joined := state.joined, routed := started.routed);
    var targets, deliveries := Targets(compiled.edges, source.node), DeliveriesOf(compiled, source.node, dispatch);
    if dispatch.stop {
      var selected := Selected(compiled, dispatch.deliveries);
      ClosingOnlyBuckets(compiled, started, source, targets, selected);
      RoutedOnly(compiled, state, started, after);
    } else {
      var prepared := PrepareSourceSet(compiled, started, dispatch.(deliveries := deliveries)).value;
      PreparedBuilds(compiled, started, dispatch.(deliveries := deliveries));
      assert deliveries[0..] == deliveries;
      DeliveriesBuild(compiled, prepared.0, source, output, deliveries, prepared.1, 0);
      var scheduled := ScheduleDeliveries(compiled, prepared.0, source, output, deliveries, prepared.1, 0, 0).value;
      Built(compiled, scheduled, prepared.1);
      ClosingOnlyBuckets(compiled, scheduled, source, targets, Selected(compiled, deliveries));
      BucketsDoNotMatter(compiled, scheduled, after.buckets, scheduled.joined, scheduled.routed, None, 0, 0);
      assert after == scheduled.(buckets := after.buckets, joined := scheduled.joined, routed := scheduled.routed);
      SpreadsAll(started, prepared.0, scheduled, after, prepared.1);
      StartedSpreads(state, started, after);
    }
  }

  lemma RoutedOnly(compiled: Compiled, state: RunState, started: RunState, after: RunState)
    requires Building(compiled, state, None, 0, 0) && started == state.(routed := started.routed)
    requires after == started.(buckets := after.buckets)
    ensures Building(compiled, after, None, 0, 0) && Spreads(state, after, None)
    ensures after.nextIterSeq == state.nextIterSeq
  {
    BucketsDoNotMatter(compiled, state, after.buckets, state.joined, after.routed, None, 0, 0);
    assert after == state.(buckets := after.buckets, joined := state.joined, routed := after.routed);
  }

  lemma SpreadsAll(state: RunState, prepared: RunState, scheduled: RunState, after: RunState, id: Option<nat>)
    requires Spreads(state, prepared, None) && prepared.activations == state.activations
    requires (id.Some? ==> id.value !in state.sourceSets)
    requires Spreads(prepared, scheduled, id) && after == scheduled.(buckets := after.buckets)
    ensures Spreads(state, after, None)
  {
  }

  lemma StartedSpreads(state: RunState, started: RunState, after: RunState)
    requires Spreads(started, after, None) && started == state.(routed := started.routed)
    ensures Spreads(state, after, None)
  {
  }

  // ----- what is queued stays in front -----

  lemma DeliveryAppends(compiled: Compiled, state: RunState, source: Activation, output: string, item: Delivery,
                        id: Option<nat>, branchIndex: int, index: nat)
    requires ScheduleDelivery(compiled, state, source, output, item, id, branchIndex, index).Ok?
    ensures state.queue <= ScheduleDelivery(compiled, state, source, output, item, id, branchIndex, index).value.queue
  {
  }

  lemma {:induction false} DeliveriesAppend(compiled: Compiled, state: RunState, source: Activation, output: string,
                                            deliveries: seq<Delivery>, id: Option<nat>, branchIndex: int, index: nat)
    requires index <= |deliveries|
    requires ScheduleDeliveries(compiled, state, source, output, deliveries, id, branchIndex, index).Ok?
    ensures state.queue <= ScheduleDeliveries(compiled, state, source, output, deliveries, id, branchIndex,
      index).value.queue
    decreases |deliveries| - index
  {
    hide ScheduleDelivery;
    if index < |deliveries| {
      var item := deliveries[index];
      var branches := if item.iter || item.target in compiled.joins then branchIndex else branchIndex + 1;
      DeliveryAppends(compiled, state, source, output, item, id, branchIndex, index);
      var next := ScheduleDelivery(compiled, state, source, output, item, id, branchIndex, index).value;
      DeliveriesAppend(compiled, next, source, output, deliveries, id, branches, index + 1);
    }
  }

  lemma RouteAppends(compiled: Compiled, state: RunState, source: Activation, output: string, dispatch: Dispatch)
    requires Route(compiled, state, source, output, dispatch).Ok?
    ensures state.queue <= Route(compiled, state, source, output, dispatch).value.queue
  {
    hide ScheduleDeliveries, CloseAll, PrepareSourceSet, Selected;
    var started := state.(routed := state.routed + [source.id]);
    var targets, deliveries := Targets(compiled.edges, source.node), DeliveriesOf(compiled, source.node, dispatch);
    if dispatch.stop {
      ClosingOnlyBuckets(compiled, started, source, targets, Selected(compiled, dispatch.deliveries));
    } else {
      var prepared := PrepareSourceSet(compiled, started, dispatch.(deliveries := deliveries)).value;
      PreparedQueue(compiled, started, dispatch.(deliveries := deliveries));
      DeliveriesAppend(compiled, prepared.0, source, output, deliveries, prepared.1, 0, 0);
      var scheduled := ScheduleDeliveries(compiled, prepared.0, source, output, deliveries, prepared.1, 0, 0).value;
      ClosingOnlyBuckets(compiled, scheduled, source, targets, Selected(compiled, deliveries));
    }
  }

  lemma PreparedQueue(compiled: Compiled, state: RunState, dispatch: Dispatch)
    requires PrepareSourceSet(compiled, state, dispatch).Ok?
    ensures PrepareSourceSet(compiled, state, dispatch).value.0.queue == state.queue
  {
  }
}
