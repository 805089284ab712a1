/** When a join fires, and what keeps it from firing: it waits for the activations that
    feed it, not for predecessors that have none (workflow/workflow.go,
    workflow/join_expectation.go). */
module JoinWaits {
  import opened Options
  import opened Topology
  import opened RunState
  import opened Joins
  import opened Conservation
  import opened Scheduling
  import opened SchedulingSafety
  import opened RoutingSafety
  import opened SchedulingLaws
  import Codec
  import opened SchedulingRuns
  import opened Deliveries
  import opened JoinLaws
  import opened Epochs
  import opened Results

  // ----- when a join fires -----

  /** The join has got something, every activation that feeds it has announced how much it
      will get of it, and it has got as much of each node as was announced. */
  ghost predicate Complete(compiled: Compiled, state: RunState, key: JoinKey) {
    && key in state.buckets && HasContribution(state.buckets[key])
    && (forall node, id ::
          node in Targets(compiled.predecessors, key.target) && Feeds(compiled, state, key, node, id) ==>
          id in Expected(state.buckets[key], node))
    && (forall node :: node in Targets(compiled.predecessors, key.target) ==>
          |Contributed(state.buckets[key], node)| == Sum(Expected(state.buckets[key], node)))
  }

  ghost predicate HasContribution(bucket: JoinBucket) {
    exists node :: Contributed(bucket, node) != []
  }

  /** The scheduler fires exactly the complete joins; so a predecessor of which there is no
      activation keeps none from firing. */
  lemma ReadyIffComplete(compiled: Compiled, state: RunState, key: JoinKey)
    requires Conserved(compiled, state)
    ensures JoinReady(compiled, state, key) <==> Complete(compiled, state, key)
  {
    BucketIsSound(compiled, View(state), key, None);
    hide QueueSound, SetsSound, ItersSound, RoutingSound;
    if JoinReady(compiled, state, key) {
      ReadyIsComplete(compiled, state, key);
    }
    if Complete(compiled, state, key) {
      CompleteIsReady(compiled, state, key);
    }
  }

  lemma ReadyIsComplete(compiled: Compiled, state: RunState, key: JoinKey)
    requires JoinsSound(compiled, View(state), None) && JoinReady(compiled, state, key)
    ensures Complete(compiled, state, key)
  {
    var bucket := state.buckets[key];
    BucketIsSound(compiled, View(state), key, None);
    assert bucket.contributions.Keys != {};
    var some :| some in bucket.contributions;
    assert Contributed(bucket, some) != [];
    forall node | node in Targets(compiled.predecessors, key.target)
      ensures |Contributed(bucket, node)| == Sum(Expected(bucket, node))
      ensures forall id :: Feeds(compiled, state, key, node, id) ==> id in Expected(bucket, node)
    {
      assert SourceReady(bucket, node, PendingJoinActivations(compiled, state, key, node));
      EveryoneAnnounced(compiled, state, key, node);
      FeedsAreStanding(compiled, state, key, node);
    }
  }

  lemma FeedsAreStanding(compiled: Compiled, state: RunState, key: JoinKey, node: string)
    ensures forall id :: Feeds(compiled, state, key, node, id) <==>
      id in Standing(View(state).places, FeedingCorrelation(compiled, key, node), node)
  {
  }

  lemma CompleteIsReady(compiled: Compiled, state: RunState, key: JoinKey)
    requires JoinsSound(compiled, View(state), None) && Complete(compiled, state, key)
    ensures JoinReady(compiled, state, key)
  {
    var bucket := state.buckets[key];
    BucketIsSound(compiled, View(state), key, None);
    var some :| Contributed(bucket, some) != [];
    assert some in bucket.contributions;
    forall node | node in Targets(compiled.predecessors, key.target)
      ensures SourceReady(bucket, node, PendingJoinActivations(compiled, state, key, node))
    {
      CountsAgree(compiled, state, key, node);
    }
  }

  lemma CountsAgree(compiled: Compiled, state: RunState, key: JoinKey, node: string)
    requires JoinsSound(compiled, View(state), None) && Complete(compiled, state, key)
    requires node in Targets(compiled.predecessors, key.target)
    ensures |Expected(state.buckets[key], node)| == PendingJoinActivations(compiled, state, key, node)
  {
    var bucket, standing :=
      state.buckets[key], Standing(View(state).places, FeedingCorrelation(compiled, key, node), node);
    BucketIsSound(compiled, View(state), key, None);
    FeedsAreStanding(compiled, state, key, node);
    assert forall id :: id in Expected(bucket, node) ==>
      HeardSound(compiled, View(state).places, state.routed, key, bucket, node, id);
    assert Expected(bucket, node).Keys == standing;
    assert |Expected(bucket, node)| == |Expected(bucket, node).Keys|;
    assert At2(state.correlations, FeedingCorrelation(compiled, key, node), node) == |standing|;
  }

  ghost predicate NoneReady(compiled: Compiled, state: RunState) {
    forall key :: key in state.buckets ==> !JoinReady(compiled, state, key)
  }

  /** That is: no join is left that is complete. */
  lemma NoneReadyIffNoneComplete(compiled: Compiled, state: RunState)
    requires Conserved(compiled, state)
    ensures NoneReady(compiled, state) <==> forall key :: !Complete(compiled, state, key)
  {
    forall key
      ensures JoinReady(compiled, state, key) <==> Complete(compiled, state, key)
    {
      ReadyIffComplete(compiled, state, key);
    }
    hide Conserved, Complete;
  }

  /** Activations may have been added, but none has moved. */
  ghost predicate PlacesStay(before: RunState, after: RunState) {
    forall id :: id in before.activations ==>
      id in after.activations && PlaceOf(after.activations[id].activation) == PlaceOf(before.activations[id].activation)
  }

  /** A join becomes ready only by hearing something: more activations that feed it can
      only make it wait. */
  lemma NoneReadyStays(compiled: Compiled, before: RunState, after: RunState)
    requires Conserved(compiled, before) && Conserved(compiled, after)
    requires SameJoins(before, after) && PlacesStay(before, after) && NoneReady(compiled, before)
    ensures NoneReady(compiled, after)
  {
    NoneReadyIffNoneComplete(compiled, before);
    NoneReadyIffNoneComplete(compiled, after);
    hide Conserved, NoneReady;
    forall key
      ensures !Complete(compiled, after, key)
    {
      if Complete(compiled, after, key) {
        CompleteBefore(compiled, before, after, key);
      }
    }
  }

  lemma CompleteBefore(compiled: Compiled, before: RunState, after: RunState, key: JoinKey)
    requires SameJoins(before, after) && PlacesStay(before, after) && Complete(compiled, after, key)
    ensures Complete(compiled, before, key)
  {
    forall node, id | node in Targets(compiled.predecessors, key.target) && Feeds(compiled, before, key, node, id)
      ensures id in Expected(before.buckets[key], node)
    {
      assert Feeds(compiled, after, key, node, id);
    }
  }

  /** Operations that look at no join make none ready. */
  lemma ApartMakesNoneReady(compiled: Compiled, state: RunState, operation: Operation)
    requires Wired(compiled) && Performed(compiled, state, operation) && Apart(operation) && NoneReady(compiled, state)
    ensures NoneReady(compiled, Perform(compiled, state, operation).value)
  {
    hide Conserved, NoneReady, Perform, Enabled, PlacesStay;
    PerformConserves(compiled, state, operation);
    ApartKeepsJoins(compiled, state, operation);
    ApartKeepsPlaces(compiled, state, operation);
    NoneReadyStays(compiled, state, Perform(compiled, state, operation).value);
  }

  lemma ApartKeepsPlaces(compiled: Compiled, state: RunState, operation: Operation)
    requires Performed(compiled, state, operation) && Apart(operation)
    ensures PlacesStay(state, Perform(compiled, state, operation).value)
  {
    hide Conserved, PullItem, PlacesStay;
    if operation.Pulled? {
      ConservedQueue(compiled, state);
      PullingKeepsPlaces(compiled, state, operation.iter, operation.value, operation.cursor);
    } else {
      hide Perform, Enabled;
      NoneAdded(compiled, state, operation);
      UnmovedKeepsPlaces(state, Perform(compiled, state, operation).value);
    }
  }

  lemma PullingKeepsPlaces(compiled: Compiled, state: RunState, iter: nat, value: string, cursor: Option<string>)
    requires QueueSound(state) && PullItem(compiled, state, iter, value, cursor).Ok?
    ensures PlacesStay(state, PullItem(compiled, state, iter, value, cursor).value)
  {
    hide NextCorrelation, TrackCorrelation, Bump, QueueIDs, QueueCount;
    assert state.nextActSeq !in state.activations;
  }

  lemma UnmovedKeepsPlaces(before: RunState, after: RunState)
    requires Unmoved(before, after)
    ensures PlacesStay(before, after)
  {
  }

  // ----- who has announced -----

  /** The join has heard how much it will get of the activation, or has fired already. */
  predicate HeardAt(compiled: Compiled, state: RunState, source: Activation, target: string) {
    var key := FedJoin(compiled, source, target);
    Fired(state.joined, key) || source.id in ExpectedBy(state, key, source.node)
  }

  ghost predicate Heard(compiled: Compiled, state: RunState, source: Activation) {
    forall target :: target in Targets(compiled.edges, source.node) && target in compiled.joins ==>
      HeardAt(compiled, state, source, target)
  }

  /** What joins have heard they do not forget, unless they fire. */
  ghost predicate StillHeard(compiled: Compiled, before: RunState, after: RunState) {
    forall source, target :: HeardAt(compiled, before, source, target) ==> HeardAt(compiled, after, source, target)
  }

  lemma SameJoinsHeard(compiled: Compiled, before: RunState, after: RunState)
    requires SameJoins(before, after)
    ensures StillHeard(compiled, before, after)
  {
  }

  lemma ClosingHeard(compiled: Compiled, state: RunState, source: Activation, selected: map<string, int>)
    requires CloseJoinExpectations(compiled, state, source, selected).Ok?
    ensures var after := CloseJoinExpectations(compiled, state, source, selected).value;
            StillHeard(compiled, state, after) && Heard(compiled, after, source) && after.routed == state.routed
  {
    hide CloseAll, ExpectedBy, Fired;
    var targets, after :=
      Targets(compiled.edges, source.node), CloseJoinExpectations(compiled, state, source, selected).value;
    ClosingOnlyBuckets(compiled, state, source, targets, selected);
    forall other, target | HeardAt(compiled, state, other, target)
      ensures HeardAt(compiled, after, other, target)
    {
      ClosedExpects(compiled, state, source, targets, selected, FedJoin(compiled, other, target), other.node);
    }
    forall target | target in targets && target in compiled.joins
      ensures HeardAt(compiled, after, source, target)
    {
      ClosedExpects(compiled, state, source, targets, selected, FedJoin(compiled, source, target), source.node);
    }
  }

  lemma RoutingHeard(compiled: Compiled, state: RunState, source: Activation, output: string, dispatch: Dispatch)
    requires Route(compiled, state, source, output, dispatch).Ok?
    ensures var after := Route(compiled, state, source, output, dispatch).value;
            StillHeard(compiled, state, after) && Heard(compiled, after, source)
  {
    hide ScheduleDeliveries, CloseJoinExpectations, Selected, Materialized, Iterated, Heard, StillHeard;
    var deliveries := DeliveriesOf(compiled, source.node, dispatch);
    var started := state.(routed := state.routed + [source.id]);
    var after := Route(compiled, state, source, output, dispatch).value;
    if dispatch.stop {
      SameBucketsHeard(compiled, state, started);
      ClosingHeard(compiled, started, source, Selected(compiled, dispatch.deliveries));
      StillHeardOn(compiled, state, started, after);
    } else {
      var prepared := PrepareSourceSet(compiled, started, dispatch.(deliveries := deliveries)).value;
      SameBucketsHeard(compiled, state, prepared.0);
      var scheduled := ScheduleDeliveries(compiled, prepared.0, source, output, deliveries, prepared.1, 0, 0).value;
      DeliveringHeard(compiled, prepared.0, source, output, deliveries, prepared.1);
      ClosingHeard(compiled, scheduled, source, Selected(compiled, deliveries));
      StillHeardOn(compiled, state, prepared.0, scheduled);
      StillHeardOn(compiled, state, scheduled, after);
    }
  }

  lemma SameBucketsHeard(compiled: Compiled, before: RunState, after: RunState)
    requires after.buckets == before.buckets && after.joined == before.joined
    ensures StillHeard(compiled, before, after)
  {
  }

  lemma StillHeardOn(compiled: Compiled, first: RunState, second: RunState, third: RunState)
    requires StillHeard(compiled, first, second) && StillHeard(compiled, second, third)
    ensures StillHeard(compiled, first, third)
  {
  }

  lemma DeliveringHeard(compiled: Compiled, state: RunState, source: Activation, output: string,
                        deliveries: seq<Delivery>, sourceSet: Option<nat>)
    requires ScheduleDeliveries(compiled, state, source, output, deliveries, sourceSet, 0, 0).Ok?
    ensures StillHeard(compiled, state,
                       ScheduleDeliveries(compiled, state, source, output, deliveries, sourceSet, 0, 0).value)
  {
    hide ScheduleDeliveries, ExpectedBy;
    var after := ScheduleDeliveries(compiled, state, source, output, deliveries, sourceSet, 0, 0).value;
    DeliveriesRecordNothing(compiled, state, source, output, deliveries, sourceSet, 0, 0);
    forall other, target | HeardAt(compiled, state, other, target)
      ensures HeardAt(compiled, after, other, target)
    {
      DeliveriesExpect(compiled, state, source, output, deliveries, sourceSet, 0, 0, FedJoin(compiled, other, target),
                       other.node);
    }
  }

  lemma FiringHeard(compiled: Compiled, state: RunState, key: JoinKey, input: string)
    ensures StillHeard(compiled, state, MaterializeJoin(state, key, input))
  {
    hide Enqueue;
    FiringSchedules(state, key, input);
    FiringRoutes(state, key, input);
    FiredMore(state.joined, Joining(key, state.nextActSeq));
    hide MaterializeJoin, Fired;
  }

  // ----- all that is over has announced -----

  /** Nothing more will become of the activation: it has ended, and so has its set. */
  predicate Over(state: RunState, id: nat) {
    && id in state.activations && !Pending(state.activations[id].phase)
    && (state.activations[id].activation.sourceSet.Some? ==>
          var of := state.activations[id].activation.sourceSet.value;
          of in state.sourceSets && state.sourceSets[of].settled)
  }

  ghost predicate AllHeard(compiled: Compiled, state: RunState) {
    && (forall id :: Over(state, id) ==> Heard(compiled, state, state.activations[id].activation))
    && (forall id :: id in state.routed ==> RoutedHeard(compiled, state, id))
  }

  ghost predicate RoutedHeard(compiled: Compiled, state: RunState, id: nat) {
    && id in state.activations && !Pending(state.activations[id].phase)
    && Heard(compiled, state, state.activations[id].activation)
  }

  lemma StillHeardOf(compiled: Compiled, before: RunState, after: RunState, source: Activation)
    requires StillHeard(compiled, before, after) && Heard(compiled, before, source)
    ensures Heard(compiled, after, source)
  {
  }

  /** Nothing was over or routed that was not before. */
  lemma StandingHeard(compiled: Compiled, before: RunState, after: RunState)
    requires AllHeard(compiled, before) && StillHeard(compiled, before, after) && after.routed == before.routed
    requires RecordsStand(before, after) && NoneSettled(before, after)
    ensures AllHeard(compiled, after)
  {
    hide StillHeard, Heard;
    forall id | Over(after, id)
      ensures Heard(compiled, after, after.activations[id].activation)
    {
      assert Over(before, id);
      StillHeardOf(compiled, before, after, before.activations[id].activation);
    }
    forall id | id in after.routed
      ensures RoutedHeard(compiled, after, id)
    {
      assert RoutedHeard(compiled, before, id);
      StillHeardOf(compiled, before, after, before.activations[id].activation);
    }
  }

  /** One more has been routed. */
  lemma RoutedOneHeard(compiled: Compiled, before: RunState, after: RunState, id: nat)
    requires AllHeard(compiled, before) && StillHeard(compiled, before, after) && after.routed == before.routed + [id]
    requires RecordsStand(before, after) && NoneSettled(before, after)
    requires id in before.activations && !Pending(before.activations[id].phase)
    requires Heard(compiled, after, before.activations[id].activation)
    ensures AllHeard(compiled, after)
  {
    hide StillHeard, Heard;
    var same := after.(routed := before.routed);
    SameHeard(compiled, before, after, same);
    StandingHeard(compiled, before, same);
    forall other | Over(after, other)
      ensures Heard(compiled, after, after.activations[other].activation)
    {
      assert Over(same, other);
      SameHeardOf(compiled, same, after, after.activations[other].activation);
    }
    forall other | other in after.routed
      ensures RoutedHeard(compiled, after, other)
    {
      if other != id {
        assert RoutedHeard(compiled, same, other);
        SameHeardOf(compiled, same, after, after.activations[other].activation);
      }
    }
  }

  lemma SameHeard(compiled: Compiled, before: RunState, after: RunState, same: RunState)
    requires StillHeard(compiled, before, after) && same.buckets == after.buckets && same.joined == after.joined
    ensures StillHeard(compiled, before, same)
  {
  }

  lemma SameHeardOf(compiled: Compiled, before: RunState, after: RunState, source: Activation)
    requires Heard(compiled, before, source) && after.buckets == before.buckets && after.joined == before.joined
    ensures Heard(compiled, after, source)
  {
  }

  // ----- the operations -----

  /** One activation has ended, all others stand. */
  ghost predicate StandBut(before: RunState, after: RunState, id: nat) {
    && (forall other :: other in before.activations && other != id ==>
          other in after.activations && RecordStands(before.activations[other], after.activations[other]))
    && (forall other :: other in after.activations && other !in before.activations ==>
          Pending(after.activations[other].phase))
  }

  /** The activation that ended is not over yet, or has announced. */
  lemma EndingHeard(compiled: Compiled, before: RunState, after: RunState, id: nat, routed: bool)
    requires AllHeard(compiled, before) && StillHeard(compiled, before, after)
    requires after.routed == before.routed + if routed then [id] else []
    requires StandBut(before, after, id) && NoneSettled(before, after)
    requires id in after.activations && id in before.activations && Pending(before.activations[id].phase)
    requires Over(after, id) ==> Heard(compiled, after, after.activations[id].activation)
    requires routed ==> Over(after, id)
    ensures AllHeard(compiled, after)
  {
    hide StillHeard, Heard;
    forall other | Over(after, other)
      ensures Heard(compiled, after, after.activations[other].activation)
    {
      if other != id {
        assert Over(before, other);
        StillHeardOf(compiled, before, after, before.activations[other].activation);
      }
    }
    forall other | other in after.routed
      ensures RoutedHeard(compiled, after, other)
    {
      if other in before.routed {
        assert RoutedHeard(compiled, before, other);
        StillHeardOf(compiled, before, after, before.activations[other].activation);
      }
    }
  }

  lemma StandaloneHeard(compiled: Compiled, state: RunState, ran: Ran, dispatch: Dispatch)
    requires Wired(compiled) && Conserved(compiled, state) && AllHeard(compiled, state)
    requires Enabled(compiled, state, CommitStandalone(ran, dispatch))
    requires CommitActivation(compiled, state, ran, dispatch).Ok?
    ensures AllHeard(compiled, CommitActivation(compiled, state, ran, dispatch).value)
  {
    hide QueueSound, SetsSound, ItersSound, RoutingSound, JoinsSound, Finish, Route, CloseJoinExpectations, AllHeard;
    hide FinishedAlone, Stands, Heard, StillHeard;
    var finished, after := Finish(state, ran).value, CommitActivation(compiled, state, ran, dispatch).value;
    FinishedIsAlone(state, ran);
    FinishingKeeps(compiled, state, ran, finished);
    QueuedIsPending(state, 0);
    HeadIsTracked(state);
    FinishedPlace(state, ran, finished);
    FinishKeepsJoins(state, ran);
    SameJoinsHeard(compiled, state, finished);
    if ran.result.skipped {
      ClosingStands(compiled, finished, ran.activation);
      ClosingHeard(compiled, finished, ran.activation, map[]);
    } else {
      ConservedBuilds(compiled, finished);
      PositiveIters(compiled, finished);
      RoutingStands(compiled, finished, ran.activation, ran.result.output, dispatch);
      RoutingHeard(compiled, finished, ran.activation, ran.result.output, dispatch);
      RoutingIsRecorded(compiled, finished, ran.activation, ran.result.output, dispatch);
    }
    StillHeardOn(compiled, state, finished, after);
    FinishedStands(state, ran, finished, after);
    EndingHeard(compiled, state, after, ran.activation.id, !ran.result.skipped);
  }

  lemma FinishedStands(state: RunState, ran: Ran, finished: RunState, after: RunState)
    requires FinishedAlone(state, ran, finished) && Stands(finished, after)
    ensures StandBut(state, after, ran.activation.id) && NoneSettled(state, after)
    ensures ran.activation.id in after.activations
    ensures after.activations[ran.activation.id].activation == ran.activation
    ensures !Pending(after.activations[ran.activation.id].phase)
  {
  }

  lemma BranchHeard(compiled: Compiled, state: RunState, ran: Ran)
    requires Conserved(compiled, state) && AllHeard(compiled, state)
    requires BranchAtHead(state, ran) && CommitBranch(state, ran).Ok?
    ensures AllHeard(compiled, CommitBranch(state, ran).value)
  {
    hide QueueSound, SetsSound, ItersSound, RoutingSound, JoinsSound, AllHeard;
    var after := CommitBranch(state, ran).value;
    QueuedIsUnsettled(compiled, state, 0);
    HeadIsTracked(state);
    CommitKeepsJoins(state, ran);
    SameJoinsHeard(compiled, state, after);
    BranchStands(state, ran);
    hide CommitBranch, Conserved, StillHeard, Heard;
    EndingHeard(compiled, state, after, ran.activation.id, false);
  }

  lemma BranchStands(state: RunState, ran: Ran)
    requires CommitBranch(state, ran).Ok?
    ensures var after := CommitBranch(state, ran).value;
            && StandBut(state, after, ran.activation.id) && NoneSettled(state, after)
            && ran.activation.id in after.activations
            && (ran.activation.id in state.activations ==>
                  after.activations[ran.activation.id].activation == state.activations[ran.activation.id].activation)
            && after.sourceSets.Keys == state.sourceSets.Keys
            && (forall id :: id in after.sourceSets ==> after.sourceSets[id].settled == state.sourceSets[id].settled)
  {
  }

  /** A branch that has not ended belongs to a set that is not settled. */
  lemma PendingIsUnsettled(compiled: Compiled, state: RunState, id: nat)
    requires Conserved(compiled, state) && id in state.activations && Pending(state.activations[id].phase)
    ensures state.activations[id].activation.sourceSet.Some? ==>
      var of := state.activations[id].activation.sourceSet.value;
      of in state.sourceSets && !state.sourceSets[of].settled
  {
    hide QueueSound, ItersSound, RoutingSound, JoinsSound;
    if state.activations[id].activation.sourceSet.Some? {
      var of := state.activations[id].activation.sourceSet.value;
      var group := state.sourceSets[of];
      assert SetSound(state.activations, of, group, 0);
      var at :| 0 <= at < |group.branches| && group.branches[at] == id;
      assert BranchAt(state.activations, of, group, at);
    }
  }

  lemma CancelHeard(compiled: Compiled, state: RunState, id: nat)
    requires Conserved(compiled, state) && AllHeard(compiled, state) && id in state.sourceSets
    requires CancelNext(state, id).Ok?
    ensures AllHeard(compiled, CancelNext(state, id).value)
  {
    hide AllHeard, NextUnselected, Conserved, CancelAt;
    var index := NextUnselected(state.queue, id, state.sourceSets[id].selected);
    if index < |state.queue| {
      QueuedIsUnsettled(compiled, state, index);
      CancelKeepsJoins(state, id);
      CanceledHeard(compiled, state, id, index);
    }
  }

  lemma QueuedIsUnsettled(compiled: Compiled, state: RunState, index: nat)
    requires Conserved(compiled, state) && index < |state.queue|
    ensures var id := state.queue[index].id;
            && id in state.activations && Pending(state.activations[id].phase) && Unsettled(state, id)
            && state.activations[id].activation == state.queue[index]
  {
    QueuedIsPending(state, index);
    hide Conserved;
    PendingIsUnsettled(compiled, state, state.queue[index].id);
  }

  predicate Unsettled(state: RunState, id: nat) {
    id in state.activations && state.activations[id].activation.sourceSet.Some? ==>
      var of := state.activations[id].activation.sourceSet.value;
      of in state.sourceSets && !state.sourceSets[of].settled
  }

  lemma CanceledHeard(compiled: Compiled, state: RunState, id: nat, index: nat)
    requires AllHeard(compiled, state) && id in state.sourceSets && index < |state.queue|
    requires CancelAt(state, id, index).Ok? && SameJoins(state, CancelAt(state, id, index).value)
    requires var item := state.queue[index].id;
             && item in state.activations && Pending(state.activations[item].phase) && Unsettled(state, item)
             && state.activations[item].activation.sourceSet.Some?
    ensures AllHeard(compiled, CancelAt(state, id, index).value)
  {
    hide AllHeard, StillHeard, Heard, StandBut, NoneSettled;
    var after := CancelAt(state, id, index).value;
    SameJoinsHeard(compiled, state, after);
    CancelStands(state, id, index);
    hide CancelAt;
    EndingHeard(compiled, state, after, state.queue[index].id, false);
  }

  lemma CancelStands(state: RunState, id: nat, index: nat)
    requires id in state.sourceSets && index < |state.queue| && CancelAt(state, id, index).Ok?
    ensures var after, item := CancelAt(state, id, index).value, state.queue[index].id;
            && StandBut(state, after, item) && NoneSettled(state, after) && item in state.activations
            && item in after.activations && after.activations[item].activation == state.activations[item].activation
            && (forall other :: other in after.sourceSets ==>
                  other in state.sourceSets && after.sourceSets[other].settled == state.sourceSets[other].settled)
  {
  }

  /** A settled set's selected branches were routed, the others were closed. */
  lemma SettlingHeard(compiled: Compiled, state: RunState, id: nat)
    requires Conserved(compiled, state) && AllHeard(compiled, state) && Enabled(compiled, state, Settled(id))
    ensures AllHeard(compiled, SettleSet(state, id))
  {
    var after := SettleSet(state, id);
    hide Conserved, UnselectedTold, FullyDealt, Heard;
    forall other | Over(after, other)
      ensures Heard(compiled, after, after.activations[other].activation)
    {
      if !Over(state, other) {
        BranchIsHeard(compiled, state, id, other);
      }
      SameHeardOf(compiled, state, after, state.activations[other].activation);
    }
    forall other | other in after.routed
      ensures RoutedHeard(compiled, after, other)
    {
      assert RoutedHeard(compiled, state, other);
      SameHeardOf(compiled, state, after, state.activations[other].activation);
    }
  }

  /** A branch of a set that is dealt with was routed, or joins were told of it. */
  lemma BranchIsHeard(compiled: Compiled, state: RunState, id: nat, branch: nat)
    requires Conserved(compiled, state) && AllHeard(compiled, state) && Enabled(compiled, state, Settled(id))
    requires branch in state.activations && state.activations[branch].activation.sourceSet == Some(id)
    ensures Heard(compiled, state, state.activations[branch].activation)
  {
    hide QueueSound, ItersSound, JoinsSound, RoutingSound, SetsSound, Heard, AllTold;
    BranchOfSet(compiled, state, id, branch);
    OutcomeFacts(compiled, state, id, branch);
    if branch in state.sourceSets[id].selected {
      assert RoutedHeard(compiled, state, branch);
    } else {
      ToldIsHeard(compiled, state, state.activations[branch].activation);
    }
  }

  lemma BranchOfSet(compiled: Compiled, state: RunState, id: nat, branch: nat)
    requires Conserved(compiled, state) && id in state.sourceSets && branch in state.activations
    requires state.activations[branch].activation.sourceSet == Some(id)
    ensures branch in state.sourceSets[id].branches
  {
  }

  lemma ToldIsHeard(compiled: Compiled, state: RunState, source: Activation)
    requires AllTold(compiled, state, source)
    ensures Heard(compiled, state, source)
  {
    forall target | target in Targets(compiled.edges, source.node) && target in compiled.joins
      ensures HeardAt(compiled, state, source, target)
    {
      assert Told(compiled, state, source, target);
    }
  }

  lemma ReleaseHeard(compiled: Compiled, state: RunState, id: nat, branch: nat, dispatch: Dispatch)
    requires Wired(compiled) && Conserved(compiled, state) && AllHeard(compiled, state)
    requires id in state.sourceSets && branch in state.sourceSets[id].selected
    requires branch in state.sourceSets[id].outcomes && ReleaseBranch(compiled, state, id, branch, dispatch).Ok?
    ensures AllHeard(compiled, ReleaseBranch(compiled, state, id, branch, dispatch).value)
  {
    hide Conserved, Route, AllHeard, Heard, StillHeard, Stands, ReleaseBranch;
    OutcomeFacts(compiled, state, id, branch);
    ReleasingStands(compiled, state, id, branch, dispatch);
    if state.sourceSets[id].outcomes[branch].committed {
      CommittedIsKept(compiled, state, id, branch, dispatch);
    } else {
      ReleasedJoins(compiled, state, id, branch, dispatch);
      ReleasedOneHeard(compiled, state, ReleaseBranch(compiled, state, id, branch, dispatch).value, branch);
    }
  }

  lemma CommittedIsKept(compiled: Compiled, state: RunState, id: nat, branch: nat, dispatch: Dispatch)
    requires id in state.sourceSets && branch in state.sourceSets[id].outcomes
    requires state.sourceSets[id].outcomes[branch].committed
    ensures ReleaseBranch(compiled, state, id, branch, dispatch) == Ok(state)
  {
  }

  lemma ReleasedOneHeard(compiled: Compiled, before: RunState, after: RunState, id: nat)
    requires AllHeard(compiled, before) && StillHeard(compiled, before, after) && after.routed == before.routed + [id]
    requires Stands(before, after) && id in before.activations && !Pending(before.activations[id].phase)
    requires Heard(compiled, after, before.activations[id].activation)
    ensures AllHeard(compiled, after)
  {
    hide AllHeard, Heard, StillHeard, RecordsStand, OutcomesStand, NoneSettled;
    RoutedOneHeard(compiled, before, after, id);
  }

  lemma ReleasedJoins(compiled: Compiled, state: RunState, id: nat, branch: nat, dispatch: Dispatch)
    requires id in state.sourceSets && branch in state.sourceSets[id].outcomes
    requires !state.sourceSets[id].outcomes[branch].committed
    requires ReleaseBranch(compiled, state, id, branch, dispatch).Ok?
    ensures var after, source :=
              ReleaseBranch(compiled, state, id, branch, dispatch).value,
                state.sourceSets[id].outcomes[branch].activation;
            && StillHeard(compiled, state, after) && Heard(compiled, after, source)
            && after.routed == state.routed + [source.id]
  {
    hide Route, Heard, StillHeard;
    var outcome, after :=
      state.sourceSets[id].outcomes[branch], ReleaseBranch(compiled, state, id, branch, dispatch).value;
    var routed := Route(compiled, state, outcome.activation, outcome.result.output, dispatch).value;
    RoutingHeard(compiled, state, outcome.activation, outcome.result.output, dispatch);
    RoutingIsRecorded(compiled, state, outcome.activation, outcome.result.output, dispatch);
    SameHeardOf(compiled, routed, after, outcome.activation);
    SameHeard(compiled, state, routed, after);
  }

  lemma PerformHeard(compiled: Compiled, state: RunState, operation: Operation)
    requires Wired(compiled) && Performed(compiled, state, operation) && AllHeard(compiled, state)
    ensures AllHeard(compiled, Perform(compiled, state, operation).value)
  {
    hide AllHeard, Conserved, Stands, StillHeard, CommitActivation, CommitBranch, CancelNext, ReleaseBranch, SettleSet;
    hide MaterializeJoin, CloseJoinExpectations;
    var after := Perform(compiled, state, operation).value;
    match operation
    case CommitStandalone(ran, dispatch) => StandaloneHeard(compiled, state, ran, dispatch);
    case CommitOne(ran) => BranchHeard(compiled, state, ran);
    case CancelOne(id) => CancelHeard(compiled, state, id);
    case Settled(id) => SettlingHeard(compiled, state, id);
    case ReleaseOne(id, branch, dispatch) => ReleaseHeard(compiled, state, id, branch, dispatch);
    case FireJoin(key, input) =>
      PerformStands(compiled, state, operation);
      FiringHeard(compiled, state, key, input);
      FiringRoutes(state, key, input);
      StoodHeard(compiled, state, after);
    case CloseOne(id, branch) =>
      var source := state.sourceSets[id].outcomes[branch].activation;
      PerformStands(compiled, state, operation);
      ClosingHeard(compiled, state, source, map[]);
      StoodHeard(compiled, state, after);
    case _ =>
      PerformStands(compiled, state, operation);
      ApartKeepsJoins(compiled, state, operation);
      hide Perform, Enabled;
      SameJoinsHeard(compiled, state, after);
      StoodHeard(compiled, state, after);
  }

  lemma StoodHeard(compiled: Compiled, before: RunState, after: RunState)
    requires AllHeard(compiled, before) && StillHeard(compiled, before, after) && after.routed == before.routed
    requires Stands(before, after)
    ensures AllHeard(compiled, after)
  {
    hide AllHeard, StillHeard, RecordsStand, NoneSettled, OutcomesStand;
    StandingHeard(compiled, before, after);
  }

  // ----- over a whole run -----

  /** In every state of a run all that is over, and all that was routed, has announced to
      every join it feeds that has not fired. */
  lemma {:induction false} EveryStateIsHeard(compiled: Compiled, states: seq<RunState>, turns: seq<Turn>, i: nat)
    requires Wired(compiled) && Reached(compiled, states, turns) && i < |states|
    ensures AllHeard(compiled, states[i])
    decreases i
  {
    hide AllHeard, Conserved, Perform, Enabled, Resumption, Codec.Kept;
    if i == 0 {
      var runID, input :| states[0] == Initial(compiled, runID, input);
      InitialHeard(compiled, runID, input);
    } else {
      assert Turned(compiled, states[..i], turns[i - 1], states[i]) && states[..i][i - 1] == states[i - 1];
      EveryStateIsConserved(compiled, states, turns, i - 1);
      match turns[i - 1]
      case Does(operation) =>
        EveryStateIsHeard(compiled, states, turns, i - 1);
        if Performed(compiled, states[i - 1], operation) {
          PerformHeard(compiled, states[i - 1], operation);
        }
      case Restarts(checkpoint, resolved) =>
        EveryStateIsHeard(compiled, states, turns, checkpoint);
        EveryStateIsSound(compiled, states, turns, checkpoint);
        ResumptionHeard(compiled, states[checkpoint], resolved);
    }
  }

  lemma InitialHeard(compiled: Compiled, runID: string, input: string)
    ensures AllHeard(compiled, Initial(compiled, runID, input))
  {
  }

  lemma ResumptionHeard(compiled: Compiled, state: RunState, resolved: bool)
    requires Conserved(compiled, state) && Codec.Kept(state) && AllHeard(compiled, state)
    ensures AllHeard(compiled, Resumption(state, resolved))
  {
    ResumptionKeepsJoins(compiled, state, resolved);
    SameJoinsHeard(compiled, state, Resumption(state, resolved));
    Codec.RoundTrip(compiled, state);
    hide Conserved, Codec.Kept, Codec.Encode, Codec.Restore;
    ResumedHeard(compiled, state, Resumption(state, resolved), resolved);
  }

  lemma ResumedHeard(compiled: Compiled, state: RunState, after: RunState, resolved: bool)
    requires AllHeard(compiled, state) && StillHeard(compiled, state, after) && after.routed == state.routed
    requires after == PrepareResume(Codec.Plain(state), resolved).(nodeVersions := after.nodeVersions)
    ensures AllHeard(compiled, after)
  {
    hide StillHeard, Heard;
    forall id | Over(after, id)
      ensures Heard(compiled, after, after.activations[id].activation)
    {
      assert Over(state, id);
      StillHeardOf(compiled, state, after, state.activations[id].activation);
    }
    forall id | id in after.routed
      ensures RoutedHeard(compiled, after, id)
    {
      assert RoutedHeard(compiled, state, id);
      StillHeardOf(compiled, state, after, state.activations[id].activation);
    }
  }

  // ----- what is left when a run is over -----

  ghost predicate EverythingIsOver(state: RunState) {
    forall id :: id in state.activations ==> Over(state, id)
  }

  /** A dispatch that stopped selected the join: it was told to expect what never comes. */
  predicate Withholds(compiled: Compiled, sending: Sending, key: JoinKey) {
    && sending.stopped && FeedsFrom(compiled, sending.source, key, sending.source.node)
    && At(Selected(compiled, sending.deliveries), key.target) > 0
  }

  ghost predicate WaitsForStopped(compiled: Compiled, sent: seq<Sending>, key: JoinKey) {
    exists at :: 0 <= at < |sent| && Withholds(compiled, sent[at], key)
  }

  /** An activation that feeds a join announces to just that join. */
  lemma FeedsIsFed(compiled: Compiled, state: RunState, key: JoinKey, node: string, id: nat)
    requires Feeds(compiled, state, key, node, id)
    ensures FedJoin(compiled, state.activations[id].activation, key.target) == key
  {
  }

  lemma {:induction false} GatheredForJoin(compiled: Compiled, sent: seq<Sending>, key: JoinKey, node: string)
    requires Gathered(compiled, sent, key, node) != []
    ensures key.target in compiled.joins
  {
    var last := |sent| - 1;
    if Given(compiled, sent[last], key, node) == [] {
      GatheredForJoin(compiled, sent[..last], key, node);
    } else {
      ContributesToJoins(compiled, sent[last].deliveries, key.target);
    }
  }

  lemma {:induction false} ContributesToJoins(compiled: Compiled, deliveries: seq<Delivery>, target: string)
    ensures Contributions(compiled, deliveries, target) > 0 ==> target in compiled.joins
  {
    if deliveries != [] {
      ContributesToJoins(compiled, deliveries[1..], target);
    }
  }

  lemma {:induction false} SomethingWithheld(compiled: Compiled, sent: seq<Sending>, key: JoinKey, node: string)
    requires AllWithheld(compiled, sent, key, node) != 0
    ensures WaitsForStopped(compiled, sent, key)
  {
    var last := |sent| - 1;
    SelectedCounts(compiled, sent[last].deliveries);
    if Withheld(compiled, sent[last], key, node) == 0 {
      SomethingWithheld(compiled, sent[..last], key, node);
      var at :| 0 <= at < last && Withholds(compiled, sent[..last][at], key);
      assert sent[at] == sent[..last][at];
    } else {
      assert Withholds(compiled, sent[last], key);
    }
  }

  /** When everything of a run is over, a join that has got something is left incomplete
      exactly if it fired before it got that, or waits for a dispatch that stopped. */
  lemma LeftIncompleteIff(compiled: Compiled, states: seq<RunState>, turns: seq<Turn>, i: nat, key: JoinKey)
    requires Wired(compiled) && Reached(compiled, states, turns) && i < |states| && EverythingIsOver(states[i])
    requires key in states[i].buckets && HasContribution(states[i].buckets[key])
    ensures !Complete(compiled, states[i], key)
       <==> Fired(states[i].joined, key) || WaitsForStopped(compiled, Sent(compiled, states, turns, i), key)
  {
    var state, sent := states[i], Sent(compiled, states, turns, i);
    EveryStateIsConserved(compiled, states, turns, i);
    EveryStateIsHeard(compiled, states, turns, i);
    EveryStateGathers(compiled, states, turns, i);
    ReadyIffComplete(compiled, state, key);
    ConservedQueue(compiled, state);
    hide Sent, Conserved, Reached, AllHeard, JoinReady;
    if !Complete(compiled, state, key) && !Fired(state.joined, key) {
      IncompleteWaits(compiled, state, sent, key);
    }
    if Complete(compiled, state, key) {
      NotYetFired(compiled, state, key);
      if WaitsForStopped(compiled, sent, key) {
        var at :| 0 <= at < |sent| && Withholds(compiled, sent[at], key);
        StoppedJoinNeverFires(compiled, states, turns, i, key, at);
      }
    }
  }

  lemma IncompleteWaits(compiled: Compiled, state: RunState, sent: seq<Sending>, key: JoinKey)
    requires Wired(compiled) && AllHeard(compiled, state) && Gathers(compiled, state, sent) && EverythingIsOver(state)
    requires key in state.buckets && HasContribution(state.buckets[key])
    requires !Complete(compiled, state, key) && !Fired(state.joined, key)
    requires forall id :: id in state.activations ==> state.activations[id].activation.id == id
    ensures WaitsForStopped(compiled, sent, key)
  {
    hide Gathered, AllWithheld, Sum, Over, WaitsForStopped;
    var bucket := state.buckets[key];
    var some :| Contributed(bucket, some) != [];
    assert CollectsWhatWasSent(compiled, state, sent, key, some);
    GatheredForJoin(compiled, sent, key, some);
    forall node, id | node in Targets(compiled.predecessors, key.target) && Feeds(compiled, state, key, node, id)
      ensures id in Expected(bucket, node)
    {
      FeedsIsFed(compiled, state, key, node, id);
      assert Heard(compiled, state, state.activations[id].activation);
      assert HeardAt(compiled, state, state.activations[id].activation, key.target);
    }
    var node :| node in Targets(compiled.predecessors, key.target)
      && |Contributed(bucket, node)| != Sum(Expected(bucket, node));
    assert CollectsWhatWasSent(compiled, state, sent, key, node);
    SomethingWithheld(compiled, sent, key, node);
  }
}
