/** Joins fire at most once for each correlation, although their buckets are
    deleted and may be created again (workflow/join_expectation.go,
    workflow/workflow.go). */
module Joins {
  import opened Options
  import opened Topology
  import opened RunState

  // What joins look at in an activation: it never changes.
  datatype Place = Place(node: string, correlation: CorrelationKey, sourceSet: Option<nat>, branchIndex: int)

  function PlaceOf(item: Activation): Place {
    Place(item.node, item.correlation, item.sourceSet, item.branchIndex)
  }

  function Places(activations: map<nat, ActivationRecord>): map<nat, Place> {
    map id | id in activations :: PlaceOf(activations[id].activation)
  }

  datatype JoinView = JoinView(
    places: map<nat, Place>,
    correlations: map<CorrelationKey, map<string, int>>,
    buckets: map<JoinKey, JoinBucket>,
    routed: seq<nat>,
    joined: seq<Joining>)

  function View(state: RunState): JoinView {
    JoinView(Places(state.activations), state.correlations, state.buckets, state.routed, state.joined)
  }

  /** Predecessors are the edges reversed. */
  ghost predicate Wired(compiled: Compiled) {
    forall source, target ::
      source in Targets(compiled.predecessors, target) <==> target in Targets(compiled.edges, source)
  }

  // ----- the invariant -----

  function At2(correlations: map<CorrelationKey, map<string, int>>, correlation: CorrelationKey, node: string): int {
    if correlation in correlations then At(correlations[correlation], node) else 0
  }

  /** The activations of a node under a correlation. */
  function Standing(places: map<nat, Place>, correlation: CorrelationKey, node: string): set<nat> {
    set id | id in places && places[id].node == node && places[id].correlation == correlation
  }

  ghost predicate CorrelationsCount(view: JoinView) {
    forall correlation, node :: At2(view.correlations, correlation, node) == |Standing(view.places, correlation, node)|
  }

  /** Only activations that feed a bucket announce to it, and only routed ones announce
      contributions; contributions come from predecessors. */
  ghost predicate BucketSound(compiled: Compiled, places: map<nat, Place>, routed: seq<nat>, key: JoinKey,
                              bucket: JoinBucket) {
    && (forall source: string, id: nat :: HeardSound(compiled, places, routed, key, bucket, source, id))
    && (forall source: string :: source in bucket.contributions ==>
          bucket.contributions[source] != [] && source in Targets(compiled.predecessors, key.target))
  }

  ghost predicate HeardSound(compiled: Compiled, places: map<nat, Place>, routed: seq<nat>, key: JoinKey,
                             bucket: JoinBucket, source: string, id: nat) {
    id in Expected(bucket, source) ==>
      && id in Standing(places, FeedingCorrelation(compiled, key, source), source)
      && Expected(bucket, source)[id] >= 0
      && (Expected(bucket, source)[id] > 0 ==> id in routed)
  }

  /** A routed activation that fed the join, and of which its bucket will not hear again. */
  ghost predicate Witness(compiled: Compiled, view: JoinView, key: JoinKey, id: nat) {
    && id in view.routed && id in view.places
    && view.places[id].node in Targets(compiled.predecessors, key.target)
    && view.places[id].correlation == FeedingCorrelation(compiled, key, view.places[id].node)
    && id !in Expected(BucketAt(view.buckets, key), view.places[id].node)
  }

  /** Each join that fired has a witness other than the activation being routed. */
  ghost predicate Witnessed(compiled: Compiled, view: JoinView, busy: Option<nat>) {
    forall i :: 0 <= i < |view.joined| ==> HasWitness(compiled, view, view.joined[i].key, busy)
  }

  ghost predicate HasWitness(compiled: Compiled, view: JoinView, key: JoinKey, busy: Option<nat>) {
    exists id: nat :: Witness(compiled, view, key, id) && busy != Some(id)
  }

  ghost predicate DistinctJoins(joined: seq<Joining>) {
    forall i, j :: 0 <= i < j < |joined| ==> joined[i].key != joined[j].key
  }

  /** Activations of join targets, but for a run's first one, come from joins. */
  ghost predicate JoinsOnly(compiled: Compiled, view: JoinView) {
    forall id :: id in view.places && id != 1 && view.places[id].node in compiled.joins ==>
      Joining(JoinKey(view.places[id].node, view.places[id].correlation), id) in view.joined
  }

  ghost predicate JoinsSound(compiled: Compiled, view: JoinView, busy: Option<nat>) {
    && CorrelationsCount(view)
    && (forall key :: key in view.buckets ==> BucketSound(compiled, view.places, view.routed, key, view.buckets[key]))
    && Witnessed(compiled, view, busy)
    && DistinctJoins(view.joined)
    && JoinsOnly(compiled, view)
  }

  lemma BucketIsSound(compiled: Compiled, view: JoinView, key: JoinKey, busy: Option<nat>)
    requires JoinsSound(compiled, view, busy)
    ensures BucketSound(compiled, view.places, view.routed, key, BucketAt(view.buckets, key))
  {
    if key in view.buckets {
      assert BucketSound(compiled, view.places, view.routed, key, view.buckets[key]);
    }
  }

  /** More activations, more of them routed, and other contributions do not unsettle a bucket. */
  lemma BucketGrows(compiled: Compiled, places: map<nat, Place>, routed: seq<nat>, key: JoinKey, bucket: JoinBucket,
                    more: map<nat, Place>, further: seq<nat>, grown: JoinBucket)
    requires BucketSound(compiled, places, routed, key, bucket)
    requires forall id :: id in places ==> id in more && more[id] == places[id]
    requires forall id :: id in routed ==> id in further
    requires grown.expectations == bucket.expectations
    requires forall source :: source in grown.contributions ==>
               grown.contributions[source] != [] && source in Targets(compiled.predecessors, key.target)
    ensures BucketSound(compiled, more, further, key, grown)
  {
    forall source: string, id: nat
      ensures HeardSound(compiled, more, further, key, grown, source, id)
    {
      assert HeardSound(compiled, places, routed, key, bucket, source, id);
    }
  }

  // ----- tracking an activation -----

  lemma TrackingCounts(places: map<nat, Place>, correlations: map<CorrelationKey, map<string, int>>, item: Activation)
    requires item.id !in places
    requires forall correlation, node :: At2(correlations, correlation, node) == |Standing(places, correlation, node)|
    ensures forall correlation, node ::
              At2(TrackCorrelation(correlations, item), correlation, node)
              == |Standing(places[item.id := PlaceOf(item)], correlation, node)|
  {
    var after, tracked := places[item.id := PlaceOf(item)], TrackCorrelation(correlations, item);
    forall correlation, node
      ensures At2(tracked, correlation, node) == |Standing(after, correlation, node)|
    {
      var before := Standing(places, correlation, node);
      if correlation == item.correlation && node == item.node {
        assert Standing(after, correlation, node) == before + {item.id};
      } else {
        assert Standing(after, correlation, node) == before;
      }
    }
  }

  /** A new activation, of no join target or just joined, disturbs nothing. */
  lemma TrackingKeeps(compiled: Compiled, view: JoinView, item: Activation, busy: Option<nat>)
    requires JoinsSound(compiled, view, busy) && item.id !in view.places
    requires item.node in compiled.joins ==> Joining(JoinKey(item.node, item.correlation), item.id) in view.joined
    ensures JoinsSound(compiled, view.(places := view.places[item.id := PlaceOf(item)],
                                       correlations := TrackCorrelation(view.correlations, item)), busy)
  {
    var after := view.(places := view.places[item.id := PlaceOf(item)],
      correlations := TrackCorrelation(view.correlations, item));
    TrackingCounts(view.places, view.correlations, item);
    forall key | key in after.buckets
      ensures BucketSound(compiled, after.places, after.routed, key, after.buckets[key])
    {
      BucketGrows(compiled, view.places, view.routed, key, view.buckets[key], after.places, after.routed,
                  view.buckets[key]);
    }
    forall i | 0 <= i < |after.joined|
      ensures HasWitness(compiled, after, after.joined[i].key, busy)
    {
      assert HasWitness(compiled, view, view.joined[i].key, busy);
      var id: nat :| Witness(compiled, view, view.joined[i].key, id) && busy != Some(id);
      assert Witness(compiled, after, after.joined[i].key, id);
    }
  }

  // ----- contributions and expectations -----

  lemma BucketKeeps(compiled: Compiled, view: JoinView, key: JoinKey, bucket: JoinBucket, busy: Option<nat>)
    requires JoinsSound(compiled, view, busy) && BucketSound(compiled, view.places, view.routed, key, bucket)
    requires forall source: string, id: nat :: id in Expected(bucket, source) && busy != Some(id) ==>
               id in Expected(BucketAt(view.buckets, key), source)
    ensures JoinsSound(compiled, view.(buckets := view.buckets[key := bucket]), busy)
  {
    var after := view.(buckets := view.buckets[key := bucket]);
    forall i | 0 <= i < |view.joined|
      ensures HasWitness(compiled, after, view.joined[i].key, busy)
    {
      assert HasWitness(compiled, view, view.joined[i].key, busy);
      var id: nat :| Witness(compiled, view, view.joined[i].key, id) && busy != Some(id);
      assert Witness(compiled, after, view.joined[i].key, id);
    }
    forall other | other in after.buckets
      ensures BucketSound(compiled, after.places, after.routed, other, after.buckets[other])
    {
      if other != key {
        assert BucketSound(compiled, view.places, view.routed, other, view.buckets[other]);
      }
    }
  }

  lemma ContributionKeeps(compiled: Compiled, state: RunState, source: string, key: JoinKey, payload: string,
                          busy: Option<nat>)
    requires JoinsSound(compiled, View(state), busy) && source in Targets(compiled.predecessors, key.target)
    ensures JoinsSound(compiled, View(AddContribution(state, source, key, payload)), busy)
  {
    var before, bucket :=
      BucketAt(state.buckets, key), BucketAt(AddContribution(state, source, key, payload).buckets, key);
    BucketIsSound(compiled, View(state), key, busy);
    BucketGrows(compiled, Places(state.activations), state.routed, key, before, Places(state.activations), state.routed,
                bucket);
    BucketKeeps(compiled, View(state), key, bucket, busy);
  }

  lemma FeedsTarget(compiled: Compiled, source: Activation, target: string)
    ensures var key := JoinKey(target, NextCorrelation(compiled.backEdges, source.correlation, source.node, target));
            FeedingCorrelation(compiled, key, source.node) == source.correlation
  {
  }

  ghost predicate NonNegative(counts: map<string, int>) {
    forall node :: node in counts ==> counts[node] >= 0
  }

  lemma {:induction false} SelectedCounts(compiled: Compiled, deliveries: seq<Delivery>)
    ensures NonNegative(Selected(compiled, deliveries))
  {
    if deliveries != [] {
      SelectedCounts(compiled, deliveries[..|deliveries| - 1]);
    }
  }

  /** Closing what joins expect of an activation keeps every join's witness. */
  lemma {:induction false} ClosingKeeps(compiled: Compiled, state: RunState, source: Activation, targets: seq<string>,
                                        selected: map<string, int>)
    requires JoinsSound(compiled, View(state), Some(source.id))
    requires source.id in state.activations && PlaceOf(state.activations[source.id].activation) == PlaceOf(source)
    requires NonNegative(selected) && (source.id in state.routed || selected == map[])
    requires CloseAll(compiled, state, source, targets, selected).Ok?
    ensures var after := CloseAll(compiled, state, source, targets, selected).value;
            after == state.(buckets := after.buckets) && JoinsSound(compiled, View(after), Some(source.id))
    decreases |targets|
  {
    if targets == [] {
    } else if targets[0] !in compiled.joins {
      ClosingKeeps(compiled, state, source, targets[1..], selected);
    } else {
      var key := JoinKey(targets[0], NextCorrelation(compiled.backEdges, source.correlation, source.node, targets[0]));
      var bucket := Close(BucketAt(state.buckets, key), source, At(selected, targets[0])).value;
      FeedsTarget(compiled, source, targets[0]);
      ClosedIsSound(compiled, state, source, key, At(selected, targets[0]));
      BucketKeeps(compiled, View(state), key, bucket, Some(source.id));
      ClosingKeeps(compiled, state.(buckets := state.buckets[key := bucket]), source, targets[1..], selected);
    }
  }

  lemma ClosedIsSound(compiled: Compiled, state: RunState, source: Activation, key: JoinKey, expected: int)
    requires JoinsSound(compiled, View(state), Some(source.id))
    requires source.id in state.activations && PlaceOf(state.activations[source.id].activation) == PlaceOf(source)
    requires FeedingCorrelation(compiled, key, source.node) == source.correlation
    requires expected >= 0 && (source.id in state.routed || expected == 0)
    requires Close(BucketAt(state.buckets, key), source, expected).Ok?
    ensures var bucket := Close(BucketAt(state.buckets, key), source, expected).value;
            && BucketSound(compiled, View(state).places, state.routed, key, bucket)
            && (forall node: string, id: nat :: id in Expected(bucket, node) && id != source.id ==>
                  id in Expected(BucketAt(state.buckets, key), node))
  {
    hide JoinsOnly, CorrelationsCount;
    var before := BucketAt(state.buckets, key);
    var bucket := Close(before, source, expected).value;
    BucketIsSound(compiled, View(state), key, Some(source.id));
    hide JoinsSound;
    forall node: string, id: nat
      ensures HeardSound(compiled, View(state).places, state.routed, key, bucket, node, id)
    {
      assert HeardSound(compiled, View(state).places, state.routed, key, before, node, id);
    }
  }

  // ----- firing -----

  /** A ready join has never fired before for this correlation: the witness of an
      earlier firing is still counted among the activations that feed it, but its
      bucket has not heard of it. */
  lemma ReadyIsNew(compiled: Compiled, state: RunState, key: JoinKey)
    requires JoinsSound(compiled, View(state), None) && JoinReady(compiled, state, key)
    ensures forall i :: 0 <= i < |state.joined| ==> state.joined[i].key != key
  {
    var view, bucket := View(state), state.buckets[key];
    forall i | 0 <= i < |state.joined| && state.joined[i].key == key
      ensures false
    {
      assert HasWitness(compiled, view, key, None);
      var id: nat :| Witness(compiled, view, key, id);
      var source := view.places[id].node;
      assert id in Standing(view.places, FeedingCorrelation(compiled, key, source), source);
      EveryoneAnnounced(compiled, state, key, source);
    }
  }

  /** When a join is ready, its bucket has heard of exactly the activations that feed it. */
  lemma EveryoneAnnounced(compiled: Compiled, state: RunState, key: JoinKey, source: string)
    requires JoinsSound(compiled, View(state), None) && JoinReady(compiled, state, key)
    requires source in Targets(compiled.predecessors, key.target)
    ensures Expected(state.buckets[key], source).Keys
         == Standing(View(state).places, FeedingCorrelation(compiled, key, source), source)
  {
    var view, bucket := View(state), state.buckets[key];
    var heard, standing :=
      Expected(bucket, source).Keys, Standing(view.places, FeedingCorrelation(compiled, key, source), source);
    BucketIsSound(compiled, view, key, None);
    forall id | id in heard
      ensures id in standing
    {
      assert HeardSound(compiled, view.places, view.routed, key, bucket, source, id);
    }
    assert SourceReady(bucket, source, PendingJoinActivations(compiled, state, key, source));
    assert |heard| == |standing|;
    SameSize(heard, standing);
  }

  lemma {:induction false} SameSize(part: set<nat>, whole: set<nat>)
    requires part <= whole && |part| == |whole|
    ensures part == whole
    decreases |whole|
  {
    if part != whole {
      var id: nat :| id in whole && id !in part;
      Smaller(part, whole - {id});
    }
  }

  lemma {:induction false} Smaller(part: set<nat>, whole: set<nat>)
    requires part <= whole
    ensures |part| <= |whole|
    decreases |part|
  {
    if id :| id in part {
      Smaller(part - {id}, whole - {id});
    }
  }

  /** A ready join has a contributor, which was routed and told its bucket so. */
  lemma Contributor(compiled: Compiled, state: RunState, key: JoinKey) returns (id: nat)
    requires JoinsSound(compiled, View(state), None) && JoinReady(compiled, state, key)
    ensures Witness(compiled, View(state).(buckets := state.buckets - {key}), key, id)
  {
    var view, bucket := View(state), state.buckets[key];
    assert BucketSound(compiled, view.places, view.routed, key, bucket);
    assert bucket.contributions.Keys != {};
    var source :| source in bucket.contributions;
    assert SourceReady(bucket, source, PendingJoinActivations(compiled, state, key, source));
    id := PositiveSum(Expected(bucket, source));
    assert HeardSound(compiled, view.places, view.routed, key, bucket, source, id);
  }

  // ----- the operations keep joins sound -----

  /** New identifiers are larger than all in use. */
  ghost predicate FreshIDs(state: RunState) {
    state.nextActSeq > 0 && forall id :: id in state.activations ==> id < state.nextActSeq
  }

  lemma NothingBusy(compiled: Compiled, view: JoinView, busy: Option<nat>)
    requires JoinsSound(compiled, view, busy)
    ensures JoinsSound(compiled, view, None)
  {
    forall i | 0 <= i < |view.joined|
      ensures HasWitness(compiled, view, view.joined[i].key, None)
    {
      assert HasWitness(compiled, view, view.joined[i].key, busy);
    }
  }

  lemma EnqueuedView(state: RunState, target: string, input: string, sourceSet: Option<nat>, branchIndex: int,
                     correlation: CorrelationKey)
    requires FreshIDs(state)
    ensures var item := Activation(state.nextActSeq, target, input, sourceSet, branchIndex, correlation);
            var after := Enqueue(state, target, input, sourceSet, branchIndex, correlation);
            && FreshIDs(after) && after.routed == state.routed
            && View(after) == View(state).(places := Places(state.activations)[item.id := PlaceOf(item)],
                                           correlations := TrackCorrelation(state.correlations, item))
  {
    var item := Activation(state.nextActSeq, target, input, sourceSet, branchIndex, correlation);
    assert Places(state.activations[item.id := Tracked(item)]) == Places(state.activations)[item.id := PlaceOf(item)];
  }

  lemma EnqueueKeeps(compiled: Compiled, state: RunState, target: string, input: string, sourceSet: Option<nat>,
                     branchIndex: int, correlation: CorrelationKey, busy: Option<nat>)
    requires JoinsSound(compiled, View(state), busy) && FreshIDs(state) && target !in compiled.joins
    ensures JoinsSound(compiled, View(Enqueue(state, target, input, sourceSet, branchIndex, correlation)), busy)
  {
    EnqueuedView(state, target, input, sourceSet, branchIndex, correlation);
    TrackingKeeps(compiled, View(state),
                  Activation(state.nextActSeq, target, input, sourceSet, branchIndex, correlation), busy);
  }

  /** Firing a ready join, before its activation is tracked. */
  lemma FiringKeeps(compiled: Compiled, state: RunState, key: JoinKey, id: nat)
    requires JoinsSound(compiled, View(state), None) && JoinReady(compiled, state, key)
    ensures JoinsSound(compiled,
      View(state).(buckets := state.buckets - {key}, joined := state.joined + [Joining(key, id)]), None)
  {
    hide JoinsSound, JoinReady, Witness;
    ReadyIsNew(compiled, state, key);
    var contributor := Contributor(compiled, state, key);
    FiredKeeps(compiled, View(state), key, id, contributor);
  }

  lemma FiredKeeps(compiled: Compiled, view: JoinView, key: JoinKey, id: nat, contributor: nat)
    requires JoinsSound(compiled, view, None) && forall i :: 0 <= i < |view.joined| ==> view.joined[i].key != key
    requires Witness(compiled, view.(buckets := view.buckets - {key}), key, contributor)
    ensures JoinsSound(compiled,
      view.(buckets := view.buckets - {key}, joined := view.joined + [Joining(key, id)]), None)
  {
    hide BucketSound, Witness, Witnessed, Standing;
    var fired := view.(buckets := view.buckets - {key}, joined := view.joined + [Joining(key, id)]);
    WitnessStays(compiled, view.(buckets := fired.buckets), fired, key, contributor);
    FiredWitnessed(compiled, view, fired, key, contributor);
  }

  lemma FiredWitnessed(compiled: Compiled, view: JoinView, fired: JoinView, key: JoinKey, contributor: nat)
    requires Witnessed(compiled, view, None) && Witness(compiled, fired, key, contributor)
    requires |fired.joined| == |view.joined| + 1 && view.joined <= fired.joined
    requires fired.joined[|view.joined|].key == key
    requires fired == view.(buckets := view.buckets - {key}, joined := fired.joined)
    ensures Witnessed(compiled, fired, None)
  {
    forall i | 0 <= i < |fired.joined|
      ensures HasWitness(compiled, fired, fired.joined[i].key, None)
    {
      if i < |view.joined| {
        assert fired.joined[i] == view.joined[i];
        assert HasWitness(compiled, view, view.joined[i].key, None);
        var earlier: nat :| Witness(compiled, view, view.joined[i].key, earlier);
        WitnessStays(compiled, view, fired, view.joined[i].key, earlier);
      }
    }
  }

  lemma WitnessStays(compiled: Compiled, view: JoinView, after: JoinView, key: JoinKey, id: nat)
    requires Witness(compiled, view, key, id) && after.places == view.places && after.routed == view.routed
    requires forall other :: other in after.buckets ==>
      other in view.buckets && after.buckets[other] == view.buckets[other]
    ensures Witness(compiled, after, key, id)
  {
  }

  lemma MaterializeKeeps(compiled: Compiled, state: RunState, key: JoinKey, input: string)
    requires JoinsSound(compiled, View(state), None) && FreshIDs(state) && JoinReady(compiled, state, key)
    ensures JoinsSound(compiled, View(MaterializeJoin(state, key, input)), None)
    ensures FreshIDs(MaterializeJoin(state, key, input))
  {
    hide JoinsSound, JoinReady;
    var view, item := View(state), Activation(state.nextActSeq, key.target, input, None, 0, key.correlation);
    FiringKeeps(compiled, state, key, item.id);
    EnqueuedView(state, key.target, input, None, 0, key.correlation);
    TrackingKeeps(compiled, view.(buckets := view.buckets - {key}, joined := view.joined + [Joining(key, item.id)]),
                  item, None);
  }

  /** Nothing is forgotten about the activations there are. */
  ghost predicate Remembers(before: RunState, after: RunState) {
    && after.routed == before.routed
    && (forall id :: id in before.activations ==>
          id in after.activations && after.activations[id] == before.activations[id])
  }

  lemma DeliveryKeeps(compiled: Compiled, state: RunState, source: Activation, output: string, item: Delivery,
                      sourceSet: Option<nat>, branchIndex: int, index: nat)
    requires Wired(compiled) && JoinsSound(compiled, View(state), Some(source.id)) && FreshIDs(state)
    requires ScheduleDelivery(compiled, state, source, output, item, sourceSet, branchIndex, index).Ok?
    ensures var after := ScheduleDelivery(compiled, state, source, output, item, sourceSet, branchIndex, index).value;
            JoinsSound(compiled, View(after), Some(source.id)) && FreshIDs(after) && Remembers(state, after)
  {
    hide JoinsSound;
    var after := ScheduleDelivery(compiled, state, source, output, item, sourceSet, branchIndex, index).value;
    var correlation := NextCorrelation(compiled.backEdges, source.correlation, source.node, item.target);
    if item.iter {
      assert View(after) == View(state);
    } else if item.target in compiled.joins {
      ContributionKeeps(compiled, state, source.node, JoinKey(item.target, correlation), output, Some(source.id));
    } else {
      var input := if UsesOutput(item) then output else item.payload.value;
      EnqueuedView(state, item.target, input, sourceSet, branchIndex, correlation);
      EnqueueKeeps(compiled, state, item.target, input, sourceSet, branchIndex, correlation, Some(source.id));
    }
  }

  lemma {:induction false} DeliveriesKeep(compiled: Compiled, state: RunState, source: Activation, output: string,
                                          deliveries: seq<Delivery>, sourceSet: Option<nat>, branchIndex: int,
                                          index: nat)
    requires Wired(compiled) && JoinsSound(compiled, View(state), Some(source.id)) && FreshIDs(state)
    requires index <= |deliveries|
    requires ScheduleDeliveries(compiled, state, source, output, deliveries, sourceSet, branchIndex, index).Ok?
    ensures var after :=
      ScheduleDeliveries(compiled, state, source, output, deliveries, sourceSet, branchIndex, index).value;
            JoinsSound(compiled, View(after), Some(source.id)) && FreshIDs(after) && Remembers(state, after)
    decreases |deliveries| - index
  {
    hide JoinsSound, ScheduleDelivery, View, Wired;
    if index < |deliveries| {
      var item := deliveries[index];
      var branches := if item.iter || item.target in compiled.joins then branchIndex else branchIndex + 1;
      var next := ScheduleDelivery(compiled, state, source, output, item, sourceSet, branchIndex, index).value;
      DeliveryKeeps(compiled, state, source, output, item, sourceSet, branchIndex, index);
      DeliveriesKeep(compiled, next, source, output, deliveries, sourceSet, branches, index + 1);
    }
  }

  /** From the moment an activation starts being routed it is nobody's witness. */
  lemma StartRouting(compiled: Compiled, view: JoinView, id: nat)
    requires JoinsSound(compiled, view, None) && id !in view.routed
    ensures JoinsSound(compiled, view.(routed := view.routed + [id]), Some(id))
  {
    var after := view.(routed := view.routed + [id]);
    forall key | key in after.buckets
      ensures BucketSound(compiled, after.places, after.routed, key, after.buckets[key])
    {
      BucketGrows(compiled, view.places, view.routed, key, view.buckets[key], after.places, after.routed,
                  view.buckets[key]);
    }
    forall i | 0 <= i < |after.joined|
      ensures HasWitness(compiled, after, after.joined[i].key, Some(id))
    {
      assert HasWitness(compiled, view, view.joined[i].key, None);
      var other: nat :| Witness(compiled, view, view.joined[i].key, other);
      assert Witness(compiled, after, after.joined[i].key, other);
    }
  }

  /** The deliveries of a dispatch; without explicit ones, its output goes everywhere. */
  function DeliveriesOf(compiled: Compiled, node: string, dispatch: Dispatch): seq<Delivery> {
    if dispatch.explicit then dispatch.deliveries
    else dispatch.deliveries + DefaultDeliveries(Targets(compiled.edges, node))
  }

  /** Registering a source set is nothing joins look at. */
  lemma PreparingKeeps(compiled: Compiled, state: RunState, dispatch: Dispatch)
    requires PrepareSourceSet(compiled, state, dispatch).Ok?
    ensures var prepared := PrepareSourceSet(compiled, state, dispatch).value.0;
            View(prepared) == View(state) && Remembers(state, prepared) && (FreshIDs(state) ==> FreshIDs(prepared))
  {
    hide Materialized, Iterated, Required;
  }

  /** Routing an activation for the first time. */
  lemma RouteKeeps(compiled: Compiled, state: RunState, source: Activation, output: string, dispatch: Dispatch)
    requires Wired(compiled) && JoinsSound(compiled, View(state), None) && FreshIDs(state)
    requires source.id in state.activations && PlaceOf(state.activations[source.id].activation) == PlaceOf(source)
    requires source.id !in state.routed && Route(compiled, state, source, output, dispatch).Ok?
    ensures var after := Route(compiled, state, source, output, dispatch).value;
            JoinsSound(compiled, View(after), None) && FreshIDs(after) && after.routed == state.routed + [source.id]
  {
    hide JoinsSound, ScheduleDeliveries, CloseAll, Wired, PrepareSourceSet, Selected;
    var started := state.(routed := state.routed + [source.id]);
    var after := Route(compiled, state, source, output, dispatch).value;
    StartRouting(compiled, View(state), source.id);
    assert View(started) == View(state).(routed := started.routed);
    var targets, deliveries := Targets(compiled.edges, source.node), DeliveriesOf(compiled, source.node, dispatch);
    if dispatch.stop {
      SelectedCounts(compiled, dispatch.deliveries);
      ClosingKeeps(compiled, started, source, targets, Selected(compiled, dispatch.deliveries));
    } else {
      PreparingKeeps(compiled, started, dispatch.(deliveries := deliveries));
      var prepared := PrepareSourceSet(compiled, started, dispatch.(deliveries := deliveries)).value;
      DeliveriesKeep(compiled, prepared.0, source, output, deliveries, prepared.1, 0, 0);
      var scheduled := ScheduleDeliveries(compiled, prepared.0, source, output, deliveries, prepared.1, 0, 0).value;
      SelectedCounts(compiled, deliveries);
      ClosingKeeps(compiled, scheduled, source, targets, Selected(compiled, deliveries));
    }
    NothingBusy(compiled, View(after), Some(source.id));
  }

  /** Closing what joins expect of a branch that was not and will not be routed. */
  lemma UnselectedKeeps(compiled: Compiled, state: RunState, source: Activation)
    requires JoinsSound(compiled, View(state), None) && source.id !in state.routed
    requires source.id in state.activations && PlaceOf(state.activations[source.id].activation) == PlaceOf(source)
    ensures CloseJoinExpectations(compiled, state, source, map[]).Ok?
    ensures var after := CloseJoinExpectations(compiled, state, source, map[]).value;
            after == state.(buckets := after.buckets) && JoinsSound(compiled, View(after), None)
  {
    var view := View(state);
    forall i | 0 <= i < |view.joined|
      ensures HasWitness(compiled, view, view.joined[i].key, Some(source.id))
    {
      assert HasWitness(compiled, view, view.joined[i].key, None);
    }
    UnselectedCloses(compiled, state, source, Targets(compiled.edges, source.node));
    ClosingKeeps(compiled, state, source, Targets(compiled.edges, source.node), map[]);
    NothingBusy(compiled, View(CloseJoinExpectations(compiled, state, source, map[]).value), Some(source.id));
  }

  /** And that always works: nothing else was ever announced for it. */
  lemma {:induction false} UnselectedCloses(compiled: Compiled, state: RunState, source: Activation,
                                            targets: seq<string>)
    requires JoinsSound(compiled, View(state), Some(source.id)) && source.id !in state.routed
    requires source.id in state.activations && PlaceOf(state.activations[source.id].activation) == PlaceOf(source)
    ensures CloseAll(compiled, state, source, targets, map[]).Ok?
    decreases |targets|
  {
    if targets != [] && targets[0] in compiled.joins {
      var key := JoinKey(targets[0], NextCorrelation(compiled.backEdges, source.correlation, source.node, targets[0]));
      var before := BucketAt(state.buckets, key);
      BucketIsSound(compiled, View(state), key, Some(source.id));
      assert HeardSound(compiled, Places(state.activations), state.routed, key, before, source.node, source.id);
      var bucket := Close(before, source, 0).value;
      FeedsTarget(compiled, source, targets[0]);
      ClosedIsSound(compiled, state, source, key, 0);
      BucketKeeps(compiled, View(state), key, bucket, Some(source.id));
      hide JoinsSound;
      UnselectedCloses(compiled, state.(buckets := state.buckets[key := bucket]), source, targets[1..]);
    } else if targets != [] {
      UnselectedCloses(compiled, state, source, targets[1..]);
    }
  }

  /** A join target has at most one activation for each correlation. */
  lemma OneActivationPerJoin(compiled: Compiled, state: RunState, left: nat, right: nat)
    requires JoinsSound(compiled, View(state), None)
    requires left in state.activations && right in state.activations && left != 1 && right != 1
    requires state.activations[left].activation.node in compiled.joins
    requires state.activations[left].activation.node == state.activations[right].activation.node
    requires state.activations[left].activation.correlation == state.activations[right].activation.correlation
    ensures left == right
  {
    hide Witnessed, HasWitness;
    var view := View(state);
    var key := JoinKey(view.places[left].node, view.places[left].correlation);
    assert key == JoinKey(view.places[right].node, view.places[right].correlation);
    assert Joining(key, left) in view.joined && Joining(key, right) in view.joined;
    var i :| 0 <= i < |view.joined| && view.joined[i] == Joining(key, left);
    var j :| 0 <= j < |view.joined| && view.joined[j] == Joining(key, right);
  }

  // ----- what joins are told -----

  function FedJoin(compiled: Compiled, source: Activation, target: string): JoinKey {
    JoinKey(target, NextCorrelation(compiled.backEdges, source.correlation, source.node, target))
  }

  /** The bucket knows that the activation contributes nothing. */
  predicate ExpectsNothing(bucket: JoinBucket, source: Activation) {
    source.id in Expected(bucket, source.node) && Expected(bucket, source.node)[source.id] == 0
  }

  predicate Fired(joined: seq<Joining>, key: JoinKey) {
    exists i :: 0 <= i < |joined| && joined[i].key == key
  }

  /** The join does not wait for the activation: it was told to expect nothing of it, or
      it has fired already. */
  predicate Told(compiled: Compiled, state: RunState, source: Activation, target: string) {
    var key := FedJoin(compiled, source, target);
    (key in state.buckets && ExpectsNothing(state.buckets[key], source)) || Fired(state.joined, key)
  }

  /** All joins the activation could have fed have been told that it will not. */
  ghost predicate AllTold(compiled: Compiled, state: RunState, source: Activation) {
    forall target :: target in Targets(compiled.edges, source.node) && target in compiled.joins ==>
      Told(compiled, state, source, target)
  }
}
