/** In which epochs the activations of a run live, and that a join target is run at most
    once in each of them, the entry included (workflow/topology.go, workflow/workflow.go). */
module Epochs {
  import opened Options
  import opened Topology
  import opened RunState
  import opened Joins
  import opened Conservation
  import opened Scheduling
  import opened SchedulingLaws
  import Codec
  import opened SchedulingRuns
  import opened RoutingSafety
  import opened JoinLaws

  /** An activation of a node that can be reached; but for the run's first one, those of
      the entry are of a later epoch than the first. */
  ghost predicate PlaceGrounded(compiled: Compiled, id: nat, node: string, correlation: CorrelationKey) {
    && Reaches(compiled.edges, compiled.entry, node) && correlation.epoch >= INITIAL_EPOCH
    && (if id == 1 then node == compiled.entry && correlation.epoch == INITIAL_EPOCH
        else node == compiled.entry ==> correlation.epoch > INITIAL_EPOCH)
  }

  ghost predicate Grounded(compiled: Compiled, state: RunState) {
    && 1 in state.activations
    && (forall id :: id in state.activations ==> RecordGrounded(compiled, id, state.activations[id].activation))
    && (forall iter :: iter in state.iterSources ==> IterGrounded(compiled, state, state.iterSources[iter]))
  }

  ghost predicate RecordGrounded(compiled: Compiled, id: nat, item: Activation) {
    PlaceGrounded(compiled, id, item.node, item.correlation)
  }

  ghost predicate IterGrounded(compiled: Compiled, state: RunState, source: IterSource) {
    && source.sourceID in state.activations
    && source.target in Targets(compiled.edges, state.activations[source.sourceID].activation.node)
  }

  ghost predicate Closed(compiled: Compiled) {
    EntryIsClosed(compiled.entry, compiled.edges, compiled.backEdges)
  }

  /** What an activation leads to is grounded. */
  lemma NextIsGrounded(compiled: Compiled, node: string, correlation: CorrelationKey, target: string, id: nat)
    requires Closed(compiled) && Reaches(compiled.edges, compiled.entry, node) && correlation.epoch >= INITIAL_EPOCH
    requires target in Targets(compiled.edges, node) && id != 1
    ensures PlaceGrounded(compiled, id, target, NextCorrelation(compiled.backEdges, correlation, node, target))
  {
    hide Reaches;
    ReachesFurther(compiled.edges, compiled.entry, node, target);
  }

  // ----- what changes nothing of that -----

  /** Nor does an iterator yield anything, or open again. */
  ghost predicate Unmoved(before: RunState, after: RunState) {
    && SamePlaces(before, after)
    && (forall iter :: iter in before.iterSources ==> SameFeed(before.iterSources[iter], after.iterSources[iter]))
  }

  predicate SameFeed(before: IterSource, after: IterSource) {
    && after.pulled == before.pulled && after.cursor == before.cursor && after.replay == before.replay
    && (after.open ==> before.open)
  }

  /** No activation moves, and no iterator gets another source or target. */
  ghost predicate SamePlaces(before: RunState, after: RunState) {
    && after.activations.Keys == before.activations.Keys && after.iterSources.Keys == before.iterSources.Keys
    && (forall id :: id in before.activations ==>
          PlaceOf(after.activations[id].activation) == PlaceOf(before.activations[id].activation))
    && (forall iter :: iter in before.iterSources ==>
          && after.iterSources[iter].sourceID == before.iterSources[iter].sourceID
          && after.iterSources[iter].target == before.iterSources[iter].target)
  }

  lemma SamePlacesGround(compiled: Compiled, before: RunState, after: RunState)
    requires Grounded(compiled, before) && SamePlaces(before, after)
    ensures Grounded(compiled, after)
  {
    hide PlaceGrounded, Targets;
    forall id | id in after.activations
      ensures RecordGrounded(compiled, id, after.activations[id].activation)
    {
      assert RecordGrounded(compiled, id, before.activations[id].activation);
    }
    forall iter | iter in after.iterSources
      ensures IterGrounded(compiled, after, after.iterSources[iter])
    {
      assert IterGrounded(compiled, before, before.iterSources[iter]);
    }
  }

  lemma EnqueueGrounds(compiled: Compiled, state: RunState, target: string, input: string, sourceSet: Option<nat>,
                       branchIndex: int, correlation: CorrelationKey)
    requires Grounded(compiled, state) && FreshIDs(state)
    requires PlaceGrounded(compiled, state.nextActSeq, target, correlation)
    ensures var after := Enqueue(state, target, input, sourceSet, branchIndex, correlation);
            Grounded(compiled, after) && FreshIDs(after)
  {
    hide PlaceGrounded, Targets;
    var after := Enqueue(state, target, input, sourceSet, branchIndex, correlation);
    forall id | id in after.activations
      ensures RecordGrounded(compiled, id, after.activations[id].activation)
    {
      if id in state.activations {
        assert RecordGrounded(compiled, id, state.activations[id].activation);
      }
    }
    forall iter | iter in after.iterSources
      ensures IterGrounded(compiled, after, after.iterSources[iter])
    {
      assert IterGrounded(compiled, state, state.iterSources[iter]);
    }
  }

  // ----- routing -----

  /** The activation being routed is one of the run's. */
  ghost predicate Routing(compiled: Compiled, state: RunState, source: Activation) {
    && Grounded(compiled, state) && FreshIDs(state)
    && source.id in state.activations && PlaceOf(state.activations[source.id].activation) == PlaceOf(source)
  }

  lemma DeliveryGrounds(compiled: Compiled, state: RunState, source: Activation, output: string, item: Delivery,
                        sourceSet: Option<nat>, branchIndex: int, index: nat)
    requires Closed(compiled) && Routing(compiled, state, source)
    requires ScheduleDelivery(compiled, state, source, output, item, sourceSet, branchIndex, index).Ok?
    ensures Routing(compiled,
      ScheduleDelivery(compiled, state, source, output, item, sourceSet, branchIndex, index).value, source)
  {
    hide PlaceGrounded, Closed, Enqueue, Grounded;
    var after := ScheduleDelivery(compiled, state, source, output, item, sourceSet, branchIndex, index).value;
    var correlation := NextCorrelation(compiled.backEdges, source.correlation, source.node, item.target);
    if item.iter {
      IterAdded(compiled, state, source, item, sourceSet.value, index);
    } else if item.target in compiled.joins {
      SamePlacesGround(compiled, state, after);
    } else {
      SourceIsGrounded(compiled, state, source);
      NextIsGrounded(compiled, source.node, source.correlation, item.target, state.nextActSeq);
      EnqueueGrounds(compiled, state, item.target, if UsesOutput(item) then output else item.payload.value, sourceSet,
                     branchIndex, correlation);
      EnqueueKeepsRecords(state, item.target, if UsesOutput(item) then output else item.payload.value, sourceSet,
                          branchIndex, correlation, source.id);
    }
  }

  lemma SourceIsGrounded(compiled: Compiled, state: RunState, source: Activation)
    requires Routing(compiled, state, source)
    ensures Reaches(compiled.edges, compiled.entry, source.node) && source.correlation.epoch >= INITIAL_EPOCH
    ensures state.nextActSeq != 1
  {
    hide Reaches;
    assert RecordGrounded(compiled, source.id, state.activations[source.id].activation);
  }

  lemma EnqueueKeepsRecords(state: RunState, target: string, input: string, sourceSet: Option<nat>, branchIndex: int,
                            correlation: CorrelationKey, id: nat)
    requires FreshIDs(state) && id in state.activations
    ensures var after := Enqueue(state, target, input, sourceSet, branchIndex, correlation);
            id in after.activations && after.activations[id] == state.activations[id]
  {
  }

  lemma IterAdded(compiled: Compiled, state: RunState, source: Activation, item: Delivery, sourceSet: nat, index: nat)
    requires Routing(compiled, state, source) && item.target in Targets(compiled.edges, source.node)
    requires ScheduleIter(compiled, state, source, item, sourceSet, index).Ok?
    ensures Routing(compiled, ScheduleIter(compiled, state, source, item, sourceSet, index).value, source)
  {
    hide PlaceGrounded, Targets;
    var after := ScheduleIter(compiled, state, source, item, sourceSet, index).value;
    forall iter | iter in after.iterSources
      ensures IterGrounded(compiled, after, after.iterSources[iter])
    {
      if iter in state.iterSources {
        assert IterGrounded(compiled, state, state.iterSources[iter]);
      }
    }
  }

  lemma {:induction false} DeliveriesGround(compiled: Compiled, state: RunState, source: Activation, output: string,
                                            deliveries: seq<Delivery>, sourceSet: Option<nat>, branchIndex: int,
                                            index: nat)
    requires Closed(compiled) && Routing(compiled, state, source)
    requires index <= |deliveries|
    requires ScheduleDeliveries(compiled, state, source, output, deliveries, sourceSet, branchIndex, index).Ok?
    ensures Routing(compiled,
      ScheduleDeliveries(compiled, state, source, output, deliveries, sourceSet, branchIndex, index).value, source)
    decreases |deliveries| - index
  {
    hide Routing, Closed, ScheduleDelivery;
    if index < |deliveries| {
      var item := deliveries[index];
      var branches := if item.iter || item.target in compiled.joins then branchIndex else branchIndex + 1;
      var next := ScheduleDelivery(compiled, state, source, output, item, sourceSet, branchIndex, index).value;
      DeliveryGrounds(compiled, state, source, output, item, sourceSet, branchIndex, index);
      DeliveriesGround(compiled, next, source, output, deliveries, sourceSet, branches, index + 1);
    }
  }

  lemma SamePlacesRoute(compiled: Compiled, before: RunState, after: RunState, source: Activation)
    requires Routing(compiled, before, source) && SamePlaces(before, after) && after.nextActSeq == before.nextActSeq
    ensures Routing(compiled, after, source)
  {
    hide Grounded;
    SamePlacesGround(compiled, before, after);
  }

  lemma RouteGrounds(compiled: Compiled, state: RunState, source: Activation, output: string, dispatch: Dispatch)
    requires Closed(compiled) && Routing(compiled, state, source)
    requires Route(compiled, state, source, output, dispatch).Ok?
    ensures Grounded(compiled, Route(compiled, state, source, output, dispatch).value)
  {
    hide ScheduleDeliveries, CloseAll, Selected, Materialized, Iterated, Grounded, Closed, FreshIDs, SamePlaces;
    var targets, deliveries := Targets(compiled.edges, source.node), DeliveriesOf(compiled, source.node, dispatch);
    var started := state.(routed := state.routed + [source.id]);
    var after := Route(compiled, state, source, output, dispatch).value;
    NothingPlaced(state, started);
    SamePlacesRoute(compiled, state, started, source);
    if dispatch.stop {
      ClosingOnlyBuckets(compiled, started, source, targets, Selected(compiled, dispatch.deliveries));
      NothingPlaced(started, after);
      SamePlacesRoute(compiled, started, after, source);
    } else {
      var prepared := PrepareSourceSet(compiled, started, dispatch.(deliveries := deliveries)).value;
      NothingPlaced(started, prepared.0);
      SamePlacesRoute(compiled, started, prepared.0, source);
      DeliveriesGround(compiled, prepared.0, source, output, deliveries, prepared.1, 0, 0);
      var scheduled := ScheduleDeliveries(compiled, prepared.0, source, output, deliveries, prepared.1, 0, 0).value;
      ClosingOnlyBuckets(compiled, scheduled, source, targets, Selected(compiled, deliveries));
      NothingPlaced(scheduled, after);
      SamePlacesRoute(compiled, scheduled, after, source);
    }
  }

  // ----- operations -----

  lemma FinishKeepsPlaces(state: RunState, ran: Ran)
    requires Finish(state, ran).Ok?
    ensures Unmoved(state, Finish(state, ran).value) && Finish(state, ran).value.nextActSeq == state.nextActSeq
  {
  }

  lemma CommitGrounds(compiled: Compiled, state: RunState, ran: Ran, dispatch: Dispatch)
    requires Closed(compiled) && Routing(compiled, state, ran.activation)
    requires CommitActivation(compiled, state, ran, dispatch).Ok?
    ensures Grounded(compiled, CommitActivation(compiled, state, ran, dispatch).value)
  {
    hide Routing, Grounded, Closed, Route, CloseAll;
    var finished := Finish(state, ran).value;
    FinishKeepsPlaces(state, ran);
    hide Finish;
    SamePlacesRoute(compiled, state, finished, ran.activation);
    if ran.result.skipped {
      ClosingOnlyBuckets(compiled, finished, ran.activation, Targets(compiled.edges, ran.activation.node), map[]);
      RoutingIsGrounded(compiled, finished, ran.activation);
      SamePlacesGround(compiled, finished, CommitActivation(compiled, state, ran, dispatch).value);
    } else {
      RouteGrounds(compiled, finished, ran.activation, ran.result.output, dispatch);
    }
  }

  lemma RoutingIsGrounded(compiled: Compiled, state: RunState, source: Activation)
    requires Routing(compiled, state, source)
    ensures Grounded(compiled, state)
  {
  }

  lemma ReleaseGrounds(compiled: Compiled, state: RunState, id: nat, branch: nat, dispatch: Dispatch)
    requires Closed(compiled) && id in state.sourceSets && branch in state.sourceSets[id].outcomes
    requires Routing(compiled, state, state.sourceSets[id].outcomes[branch].activation)
    requires ReleaseBranch(compiled, state, id, branch, dispatch).Ok?
    ensures Grounded(compiled, ReleaseBranch(compiled, state, id, branch, dispatch).value)
  {
    hide Routing, Grounded, Closed, Route;
    var outcome := state.sourceSets[id].outcomes[branch];
    RoutingIsGrounded(compiled, state, outcome.activation);
    if !outcome.committed {
      var routed := Route(compiled, state, outcome.activation, outcome.result.output, dispatch).value;
      RouteGrounds(compiled, state, outcome.activation, outcome.result.output, dispatch);
      SamePlacesGround(compiled, routed, ReleaseBranch(compiled, state, id, branch, dispatch).value);
    }
  }

  lemma PullGrounds(compiled: Compiled, state: RunState, iter: nat, value: string, cursor: Option<string>)
    requires Closed(compiled) && Grounded(compiled, state) && FreshIDs(state)
    requires PullItem(compiled, state, iter, value, cursor).Ok?
    ensures Grounded(compiled, PullItem(compiled, state, iter, value, cursor).value)
  {
    hide Bump, TrackCorrelation, At, NextCorrelation, PlaceGrounded, Closed, Grounded, FreshIDs, SamePlaces;
    var source, after := state.iterSources[iter], PullItem(compiled, state, iter, value, cursor).value;
    var item, group := state.activations[source.sourceID].activation, state.sourceSets[source.sourceSet];
    var correlation := NextCorrelation(compiled.backEdges, item.correlation, item.node, source.target);
    var expecting :=
      state.(sourceSets := state.sourceSets[source.sourceSet := group.(expected := group.expected + 1)]);
    var enqueued := Enqueue(expecting, source.target, value, Some(source.sourceSet), group.expected, correlation);
    PulledIsGrounded(compiled, state, iter);
    NothingPlaced(state, expecting);
    SamePlacesGround(compiled, state, expecting);
    SameFresh(state, expecting);
    EnqueueGrounds(compiled, expecting, source.target, value, Some(source.sourceSet), group.expected, correlation);
    EnqueueKeepsIters(expecting, source.target, value, Some(source.sourceSet), group.expected, correlation);
    hide Enqueue;
    MovedKeepsPlaces(enqueued, iter, after.iterSources[iter]);
    SamePlacesGround(compiled, enqueued, after);
  }

  lemma PulledIsGrounded(compiled: Compiled, state: RunState, iter: nat)
    requires Closed(compiled) && Grounded(compiled, state) && FreshIDs(state) && iter in state.iterSources
    requires state.iterSources[iter].sourceID in state.activations
    ensures var source := state.iterSources[iter];
            var item := state.activations[source.sourceID].activation;
            PlaceGrounded(compiled, state.nextActSeq, source.target,
                          NextCorrelation(compiled.backEdges, item.correlation, item.node, source.target))
  {
    var source := state.iterSources[iter];
    var item := state.activations[source.sourceID].activation;
    assert RecordGrounded(compiled, source.sourceID, item) && IterGrounded(compiled, state, source);
    hide Reaches, EntryIsClosed, NextCorrelation;
    NextIsGrounded(compiled, item.node, item.correlation, source.target, state.nextActSeq);
  }

  lemma MovedKeepsPlaces(state: RunState, iter: nat, source: IterSource)
    requires iter in state.iterSources
    requires source.sourceID == state.iterSources[iter].sourceID && source.target == state.iterSources[iter].target
    ensures SamePlaces(state, state.(iterSources := state.iterSources[iter := source]))
  {
  }

  lemma NothingPlaced(before: RunState, after: RunState)
    requires after.activations == before.activations && after.iterSources == before.iterSources
    ensures SamePlaces(before, after)
  {
  }

  lemma EnqueueKeepsIters(state: RunState, target: string, input: string, sourceSet: Option<nat>, branchIndex: int,
                          correlation: CorrelationKey)
    ensures Enqueue(state, target, input, sourceSet, branchIndex, correlation).iterSources == state.iterSources
  {
  }

  lemma SameFresh(before: RunState, after: RunState)
    requires FreshIDs(before) && after.activations == before.activations && after.nextActSeq == before.nextActSeq
    ensures FreshIDs(after)
  {
  }

  lemma FireGrounds(compiled: Compiled, state: RunState, key: JoinKey, input: string)
    requires Wired(compiled) && Closed(compiled) && Grounded(compiled, state) && FreshIDs(state)
    requires JoinsSound(compiled, View(state), None) && JoinReady(compiled, state, key)
    ensures Grounded(compiled, MaterializeJoin(state, key, input))
  {
    var id := Contributor(compiled, state, key);
    var item := state.activations[id].activation;
    ContributorFeeds(compiled, state, key, id);
    assert RecordGrounded(compiled, id, item);
    NextIsGrounded(compiled, item.node, item.correlation, key.target, state.nextActSeq);
    hide PlaceGrounded, Closed, Grounded, FreshIDs, JoinsSound, JoinReady;
    EnqueueGrounds(compiled, state, key.target, input, None, 0, key.correlation);
    var enqueued := Enqueue(state, key.target, input, None, 0, key.correlation);
    SamePlacesGround(compiled, enqueued, MaterializeJoin(state, key, input));
  }

  lemma ContributorFeeds(compiled: Compiled, state: RunState, key: JoinKey, id: nat)
    requires Wired(compiled) && Witness(compiled, View(state).(buckets := state.buckets - {key}), key, id)
    ensures id in state.activations
    ensures var item := state.activations[id].activation;
            && key.target in Targets(compiled.edges, item.node)
            && key.correlation == NextCorrelation(compiled.backEdges, item.correlation, item.node, key.target)
  {
  }

  /** Operations that add no activation. */
  predicate AddsNone(operation: Operation) {
    Apart(operation) && !operation.Pulled?
  }

  lemma NoneAdded(compiled: Compiled, state: RunState, operation: Operation)
    requires Performed(compiled, state, operation) && AddsNone(operation)
    ensures Unmoved(state, Perform(compiled, state, operation).value)
  {
    hide Conserved, StartActivation, CommitBranch, RetryActivation, InterruptActivation, PrepareResume;
    hide DecideSet, FailSet, CancelNext, Supersede, SettleSet, PullItem, CloseIter, FailIter;
    match operation
    case StartOne(_) => RecordsKeepPlaces(state, operation);
    case CommitOne(ran) => CommitKeepsPlaces(state, ran);
    case RetryOne(_, _) => RecordsKeepPlaces(state, operation);
    case InterruptOne(_) => RecordsKeepPlaces(state, operation);
    case ResumeAll(resolved) => ResumeKeepsPlaces(state, resolved);
    case Decided(id, selected) => DecidingKeepsPlaces(state, id, selected);
    case FailedSet(id) => DecidingKeepsPlaces(state, id, []);
    case CancelOne(id) => CancelKeepsPlaces(state, id);
    case SupersedeOne(id, branch) => SupersedeKeepsPlaces(state, id, branch);
    case Settled(id) => DecidingKeepsPlaces(state, id, []);
    case Exhausted(iter) => ExhaustKeepsPlaces(state, iter);
    case FailedIter(iter, cause) => FailIterKeepsPlaces(compiled, state, iter, cause);
    case Permuted(_) => SamePlacesAs(state, Perform(compiled, state, operation).value);
    case Numbered(_) => SamePlacesAs(state, Perform(compiled, state, operation).value);
  }

  lemma SamePlacesAs(before: RunState, after: RunState)
    requires after.activations == before.activations && after.iterSources == before.iterSources
    ensures Unmoved(before, after)
  {
  }

  lemma RecordsKeepPlaces(state: RunState, operation: Operation)
    ensures operation.StartOne? && StartActivation(state, operation.id).Ok? ==>
      Unmoved(state, StartActivation(state, operation.id).value)
    ensures operation.RetryOne? && RetryActivation(state, operation.id, operation.input).Ok? ==>
              Unmoved(state, RetryActivation(state, operation.id, operation.input).value)
    ensures operation.InterruptOne? && InterruptActivation(state, operation.id).Ok? ==>
              Unmoved(state, InterruptActivation(state, operation.id).value)
  {
  }

  lemma ResumeKeepsPlaces(state: RunState, resolved: bool)
    ensures Unmoved(state, PrepareResume(state, resolved))
  {
  }

  lemma CommitKeepsPlaces(state: RunState, ran: Ran)
    requires CommitBranch(state, ran).Ok?
    ensures Unmoved(state, CommitBranch(state, ran).value)
  {
    FinishKeepsPlaces(state, ran);
    hide Finish;
  }

  lemma DecidingKeepsPlaces(state: RunState, id: nat, selected: seq<nat>)
    requires id in state.sourceSets
    ensures Unmoved(state, DecideSet(state, id, selected)) && Unmoved(state, FailSet(state, id))
    ensures Unmoved(state, SettleSet(state, id))
  {
    IterSourcesStay(state, id);
    hide CloseIterSources;
  }

  lemma IterSourcesStay(state: RunState, id: nat)
    ensures var closed := CloseIterSources(state, id);
            && Unmoved(state, closed) && closed.sourceSets.Keys == state.sourceSets.Keys
  {
    hide Unmoved, SameFeeds, ClosedFor;
    ClosingFields(state, id);
    hide CloseIterSources;
    ClosedKeepsFeeds(state.iterSources, id);
    OnlyItersChange(state, CloseIterSources(state, id));
  }

  lemma ClosingFields(state: RunState, id: nat)
    ensures var closed := CloseIterSources(state, id);
            && closed.activations == state.activations && closed.sourceSets.Keys == state.sourceSets.Keys
            && closed.iterSources == ClosedFor(state.iterSources, id)
  {
    hide ClosedFor;
    if id in state.sourceSets {
      SameKeys(state.sourceSets, id, state.sourceSets[id].(openSources := 0));
    }
  }

  lemma SameKeys(sets: map<nat, SourceSet>, id: nat, group: SourceSet)
    requires id in sets
    ensures sets[id := group].Keys == sets.Keys
  {
  }

  ghost predicate SameFeeds(before: map<nat, IterSource>, after: map<nat, IterSource>) {
    && after.Keys == before.Keys
    && (forall iter :: iter in before ==>
          && after[iter].sourceID == before[iter].sourceID
          && after[iter].target == before[iter].target && SameFeed(before[iter], after[iter]))
  }

  lemma ClosedKeepsFeeds(sources: map<nat, IterSource>, id: nat)
    ensures SameFeeds(sources, ClosedFor(sources, id))
  {
  }

  lemma FailedKeepsFeeds(sources: map<nat, IterSource>, id: nat, iter: nat, cause: Cause)
    requires iter in sources
    ensures var closed := ClosedFor(sources, id);
            SameFeeds(sources, closed[iter := closed[iter].(cause := Some(cause))])
  {
  }

  lemma OnlyItersChange(before: RunState, after: RunState)
    requires after.activations == before.activations && SameFeeds(before.iterSources, after.iterSources)
    ensures Unmoved(before, after)
  {
    hide PlaceOf;
  }

  lemma CancelKeepsPlaces(state: RunState, id: nat)
    requires id in state.sourceSets && CancelNext(state, id).Ok?
    ensures Unmoved(state, CancelNext(state, id).value)
  {
    var index := NextUnselected(state.queue, id, state.sourceSets[id].selected);
    hide NextUnselected, Unmoved;
    if index < |state.queue| {
      CancelAtKeepsPlaces(state, id, index);
    } else {
      NothingMoves(state);
    }
  }

  lemma CancelAtKeepsPlaces(state: RunState, id: nat, index: nat)
    requires id in state.sourceSets && index < |state.queue| && CancelAt(state, id, index).Ok?
    ensures Unmoved(state, CancelAt(state, id, index).value)
  {
  }

  lemma NothingMoves(state: RunState)
    ensures Unmoved(state, state)
  {
  }

  lemma SupersedeKeepsPlaces(state: RunState, id: nat, branch: nat)
    requires id in state.sourceSets && branch in state.sourceSets[id].outcomes
    ensures Unmoved(state, Supersede(state, id, branch))
  {
  }

  lemma ExhaustKeepsPlaces(state: RunState, iter: nat)
    requires CloseIter(state, iter).Ok?
    ensures Unmoved(state, CloseIter(state, iter).value)
  {
  }

  lemma FailIterKeepsPlaces(compiled: Compiled, state: RunState, iter: nat, cause: Cause)
    requires Conserved(compiled, state) && iter in state.iterSources
    ensures state.iterSources[iter].sourceSet in state.sourceSets && Unmoved(state, FailIter(state, iter, cause))
  {
    Codec.IterHasSet(compiled, state, iter);
    hide Conserved, Unmoved;
    FailedKeepsFeeds(state.iterSources, state.iterSources[iter].sourceSet, iter, cause);
    hide ClosedFor, SameFeeds;
    OnlyItersChange(state, FailIter(state, iter, cause));
  }

  lemma PerformGrounds(compiled: Compiled, state: RunState, operation: Operation)
    requires Wired(compiled) && Closed(compiled) && Performed(compiled, state, operation) && Grounded(compiled, state)
    ensures Grounded(compiled, Perform(compiled, state, operation).value)
  {
    hide Grounded, Conserved, Closed, Wired;
    if AddsNone(operation) {
      hide Enabled, Perform;
      NoneAdded(compiled, state, operation);
      SamePlacesGround(compiled, state, Perform(compiled, state, operation).value);
    } else {
      OtherGrounds(compiled, state, operation);
    }
  }

  lemma OtherGrounds(compiled: Compiled, state: RunState, operation: Operation)
    requires Wired(compiled) && Closed(compiled) && Performed(compiled, state, operation) && Grounded(compiled, state)
    requires !AddsNone(operation)
    ensures Grounded(compiled, Perform(compiled, state, operation).value)
  {
    hide Grounded, Conserved, Closed, Wired, CommitActivation, ReleaseBranch, MaterializeJoin, CloseJoinExpectations;
    hide PullItem, Routing, FreshIDs, JoinsSound, JoinReady;
    ConservedIsFresh(compiled, state);
    match operation
    case CommitStandalone(ran, dispatch) =>
      HeadIsRouted(compiled, state);
      CommitGrounds(compiled, state, ran, dispatch);
    case FireJoin(key, input) => FireGrounds(compiled, state, key, input);
    case CloseOne(id, branch) =>
      var source := state.sourceSets[id].outcomes[branch].activation;
      ClosingKeepsPlaces(compiled, state, source);
      SamePlacesGround(compiled, state, Perform(compiled, state, operation).value);
    case ReleaseOne(id, branch, dispatch) =>
      SelectedIsRouted(compiled, state, id, branch);
      ReleaseGrounds(compiled, state, id, branch, dispatch);
    case Pulled(iter, value, cursor) => PullGrounds(compiled, state, iter, value, cursor);
  }

  lemma ClosingKeepsPlaces(compiled: Compiled, state: RunState, source: Activation)
    requires CloseJoinExpectations(compiled, state, source, map[]).Ok?
    ensures Unmoved(state, CloseJoinExpectations(compiled, state, source, map[]).value)
  {
    hide CloseAll;
    ClosingOnlyBuckets(compiled, state, source, Targets(compiled.edges, source.node), map[]);
  }

  lemma ConservedIsFresh(compiled: Compiled, state: RunState)
    requires Conserved(compiled, state)
    ensures FreshIDs(state) && JoinsSound(compiled, View(state), None)
  {
    hide SetsSound, ItersSound, RoutingSound, JoinsSound;
    IdsAreFresh(state);
  }

  lemma HeadIsRouted(compiled: Compiled, state: RunState)
    requires Conserved(compiled, state) && Grounded(compiled, state) && state.queue != []
    ensures Routing(compiled, state, state.queue[0])
  {
    hide SetsSound, ItersSound, RoutingSound, JoinsSound, Grounded;
    IdsAreFresh(state);
    assert TrackedAs(state.activations, state.queue[0]);
  }

  lemma SelectedIsRouted(compiled: Compiled, state: RunState, id: nat, branch: nat)
    requires Conserved(compiled, state) && Grounded(compiled, state) && id in state.sourceSets
    requires branch in state.sourceSets[id].selected
    ensures branch in state.sourceSets[id].outcomes
    ensures Routing(compiled, state, state.sourceSets[id].outcomes[branch].activation)
  {
    SelectedIsDecided(compiled, state, id, branch);
    OutcomeFacts(compiled, state, id, branch);
    hide SetsSound, ItersSound, RoutingSound, JoinsSound, Grounded;
    IdsAreFresh(state);
  }

  lemma {:induction false} EveryStateIsGrounded(compiled: Compiled, states: seq<RunState>, turns: seq<Turn>, i: nat)
    requires Wired(compiled) && Closed(compiled) && Reached(compiled, states, turns) && i < |states|
    ensures Grounded(compiled, states[i])
    decreases i
  {
    hide Grounded, Conserved, Perform, Enabled, Resumption, Closed, Codec.Kept;
    if i == 0 {
      var runID, input :| states[0] == Initial(compiled, runID, input);
      InitialIsGrounded(compiled, runID, input);
    } else {
      assert Turned(compiled, states[..i], turns[i - 1], states[i]);
      EveryStateIsConserved(compiled, states, turns, i - 1);
      match turns[i - 1]
      case Does(operation) =>
        EveryStateIsGrounded(compiled, states, turns, i - 1);
        if Performed(compiled, states[i - 1], operation) {
          PerformGrounds(compiled, states[i - 1], operation);
        }
      case Restarts(checkpoint, resolved) =>
        EveryStateIsGrounded(compiled, states, turns, checkpoint);
        EveryStateIsSound(compiled, states, turns, checkpoint);
        ResumptionKeepsPlaces(compiled, states[checkpoint], resolved);
        SamePlacesGround(compiled, states[checkpoint], states[i]);
    }
  }

  lemma ResumptionKeepsPlaces(compiled: Compiled, state: RunState, resolved: bool)
    requires Conserved(compiled, state) && Codec.Kept(state)
    ensures Unmoved(state, Resumption(state, resolved))
  {
    hide Conserved, Codec.Kept, Codec.Encode, Codec.Restore, Codec.Plain, Unmoved, PrepareResume;
    Codec.RoundTrip(compiled, state);
    var restored := Codec.Restore(Codec.Encode(state), state.routed, state.joined);
    PlainKeepsPlaces(state, restored);
    ResumeKeepsPlaces(restored, resolved);
    UnmovedOn(state, restored, PrepareResume(restored, resolved));
  }

  lemma UnmovedOn(first: RunState, second: RunState, third: RunState)
    requires Unmoved(first, second) && Unmoved(second, third)
    ensures Unmoved(first, third)
  {
  }

  lemma PlainKeepsPlaces(state: RunState, after: RunState)
    requires after == Codec.Plain(state).(nodeVersions := after.nodeVersions)
    ensures Unmoved(state, after)
  {
    hide Codec.KeptResult, Codec.PlainCause, Codec.PlainSet;
  }

  lemma InitialIsGrounded(compiled: Compiled, runID: string, input: string)
    ensures Grounded(compiled, Initial(compiled, runID, input))
  {
    ReachesItself(compiled.edges, compiled.entry);
    hide Reaches;
  }

  /** Over a whole run a join target has at most one activation for each correlation, also
      if it is the entry. */
  lemma JoinTargetsRunOnce(compiled: Compiled, states: seq<RunState>, turns: seq<Turn>, i: nat, left: nat, right: nat)
    requires Wired(compiled) && Closed(compiled) && Reached(compiled, states, turns) && i < |states|
    requires left in states[i].activations && right in states[i].activations
    requires states[i].activations[left].activation.node in compiled.joins
    requires states[i].activations[left].activation.node == states[i].activations[right].activation.node
    requires states[i].activations[left].activation.correlation == states[i].activations[right].activation.correlation
    ensures left == right
  {
    EveryStateIsConserved(compiled, states, turns, i);
    EveryStateIsGrounded(compiled, states, turns, i);
    hide Reached, Closed, Reaches;
    assert RecordGrounded(compiled, left, states[i].activations[left].activation);
    assert RecordGrounded(compiled, right, states[i].activations[right].activation);
    if left != 1 && right != 1 {
      OneActivationPerJoin(compiled, states[i], left, right);
    }
  }
}
