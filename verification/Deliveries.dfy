/** What a dispatch delivers: to whom, in which order, with which inputs, and that a
    join gets from an activation what it was told to expect (workflow/workflow.go,
    workflow/join_expectation.go). */
module Deliveries {
  import opened Options
  import opened Topology
  import opened RunState
  import opened Joins
  import opened RoutingSafety
  import opened Announcements

  /** A delivery that schedules a branch right away. */
  predicate Schedules(compiled: Compiled, item: Delivery) {
    !item.iter && item.target !in compiled.joins
  }

  function Asked(compiled: Compiled, item: Delivery): nat {
    if Schedules(compiled, item) then 1 else 0
  }

  /** The branches these deliveries ask for, in order. */
  function Branches(compiled: Compiled, source: Activation, output: string, deliveries: seq<Delivery>, id: nat,
                    sourceSet: Option<nat>, branchIndex: int): seq<Activation> {
    if deliveries == [] then []
    else if !Schedules(compiled, deliveries[0]) then
      Branches(compiled, source, output, deliveries[1..], id, sourceSet, branchIndex)
    else
      var item := deliveries[0];
      [Activation(id, item.target, if UsesOutput(item) then output else item.payload.value, sourceSet, branchIndex,
                  NextCorrelation(compiled.backEdges, source.correlation, source.node, item.target))]
      + Branches(compiled, source, output, deliveries[1..], id + 1, sourceSet, branchIndex + 1)
  }

  /** How many contributions to a join they make. */
  function Contributions(compiled: Compiled, deliveries: seq<Delivery>, target: string): nat {
    if deliveries == [] then 0
    else
      (if !deliveries[0].iter && deliveries[0].target == target && target in compiled.joins then 1 else 0)
      + Contributions(compiled, deliveries[1..], target)
  }

  function Repeated(output: string, count: nat): seq<string> {
    seq(count, _ => output)
  }

  /** The contributions of a node a join has collected. */
  function Collected(state: RunState, key: JoinKey, node: string): seq<string> {
    Contributed(BucketAt(state.buckets, key), node)
  }

  /** What routing on an activation adds to what a join has collected of its node. */
  function Added(compiled: Compiled, source: Activation, output: string, deliveries: seq<Delivery>, key: JoinKey,
                 node: string): seq<string> {
    if node == source.node
      && key == FedJoin(compiled, source, key.target) then Repeated(output,
           Contributions(compiled, deliveries, key.target)) else []
  }

  // ----- one delivery -----

  lemma DeliverySchedules(compiled: Compiled, state: RunState, source: Activation, output: string, item: Delivery,
                          sourceSet: Option<nat>, branchIndex: int, index: nat)
    requires ScheduleDelivery(compiled, state, source, output, item, sourceSet, branchIndex, index).Ok?
    ensures var after := ScheduleDelivery(compiled, state, source, output, item, sourceSet, branchIndex, index).value;
            && after.queue
                 == state.queue + Branches(compiled, source, output, [item], state.nextActSeq, sourceSet, branchIndex)
            && after.nextActSeq == state.nextActSeq + Asked(compiled, item)
  {
    hide AddContribution, ScheduleIter, NextCorrelation, Targets;
    var after := ScheduleDelivery(compiled, state, source, output, item, sourceSet, branchIndex, index).value;
    if Schedules(compiled, item) {
      OneBranch(compiled, source, output, item, state.nextActSeq, sourceSet, branchIndex);
      hide Branches;
    } else {
      NoBranch(compiled, source, output, item, state.nextActSeq, sourceSet, branchIndex);
      DeliverySchedulesNone(compiled, state, source, output, item, sourceSet, branchIndex, index);
      hide Branches, ScheduleDelivery;
    }
  }

  lemma DeliverySchedulesNone(compiled: Compiled, state: RunState, source: Activation, output: string, item: Delivery,
                              sourceSet: Option<nat>, branchIndex: int, index: nat)
    requires ScheduleDelivery(compiled, state, source, output, item, sourceSet, branchIndex, index).Ok?
    requires !Schedules(compiled, item)
    ensures var after := ScheduleDelivery(compiled, state, source, output, item, sourceSet, branchIndex, index).value;
            after.queue == state.queue && after.nextActSeq == state.nextActSeq
  {
    hide Enqueue, NextCorrelation, Targets;
  }

  lemma OneBranch(compiled: Compiled, source: Activation, output: string, item: Delivery, id: nat,
                  sourceSet: Option<nat>, branchIndex: int)
    requires Schedules(compiled, item)
    ensures Branches(compiled, source, output, [item], id, sourceSet, branchIndex)
         == [Activation(id, item.target, if UsesOutput(item) then output
           else item.payload.value, sourceSet, branchIndex,
                        NextCorrelation(compiled.backEdges, source.correlation, source.node, item.target))]
  {
    hide NextCorrelation;
    assert [item][1..] == [];
  }

  lemma NoBranch(compiled: Compiled, source: Activation, output: string, item: Delivery, id: nat,
                 sourceSet: Option<nat>, branchIndex: int)
    requires !Schedules(compiled, item)
    ensures Branches(compiled, source, output, [item], id, sourceSet, branchIndex) == []
  {
    assert [item][1..] == [];
  }

  lemma DeliveryContributes(compiled: Compiled, state: RunState, source: Activation, output: string, item: Delivery,
                            sourceSet: Option<nat>, branchIndex: int, index: nat, key: JoinKey, node: string)
    requires ScheduleDelivery(compiled, state, source, output, item, sourceSet, branchIndex, index).Ok?
    ensures var after := ScheduleDelivery(compiled, state, source, output, item, sourceSet, branchIndex, index).value;
            Collected(after, key, node)
              == Collected(state, key, node) + Added(compiled, source, output, [item], key, node)
  {
    hide Enqueue, ScheduleIter;
    assert [item][1..] == [];
    var after := ScheduleDelivery(compiled, state, source, output, item, sourceSet, branchIndex, index).value;
    if !item.iter && item.target in compiled.joins {
      assert after.buckets
        == AddContribution(state, source.node, FedJoin(compiled, source, item.target), output).buckets;
    } else {
      OtherBucketsStay(compiled, state, source, output, item, sourceSet, branchIndex, index);
      hide ScheduleDelivery;
      assert Contributions(compiled, [item], key.target) == 0;
      assert Added(compiled, source, output, [item], key, node) == [];
    }
  }

  lemma OtherBucketsStay(compiled: Compiled, state: RunState, source: Activation, output: string, item: Delivery,
                         sourceSet: Option<nat>, branchIndex: int, index: nat)
    requires ScheduleDelivery(compiled, state, source, output, item, sourceSet, branchIndex, index).Ok?
    requires item.iter || item.target !in compiled.joins
    ensures ScheduleDelivery(compiled, state, source, output, item, sourceSet, branchIndex, index).value.buckets
      == state.buckets
  {
  }

  // ----- all of them -----

  lemma BranchesStep(compiled: Compiled, source: Activation, output: string, deliveries: seq<Delivery>, id: nat,
                     sourceSet: Option<nat>, branchIndex: int)
    requires deliveries != []
    ensures Branches(compiled, source, output, deliveries, id, sourceSet, branchIndex)
         == Branches(compiled, source, output, [deliveries[0]], id, sourceSet, branchIndex)
            + Branches(compiled, source, output, deliveries[1..], id + Asked(compiled, deliveries[0]), sourceSet,
              branchIndex + Asked(compiled, deliveries[0]))
  {
    assert [deliveries[0]][1..] == [];
  }

  lemma AddedStep(compiled: Compiled, source: Activation, output: string, deliveries: seq<Delivery>, key: JoinKey,
                  node: string)
    requires deliveries != []
    ensures Added(compiled, source, output, deliveries, key, node)
         == Added(compiled, source, output, [deliveries[0]], key, node)
           + Added(compiled, source, output, deliveries[1..], key, node)
  {
    var one, more :=
      Contributions(compiled, [deliveries[0]], key.target), Contributions(compiled, deliveries[1..], key.target);
    assert [deliveries[0]][1..] == [];
    assert Contributions(compiled, [deliveries[0]][1..], key.target) == 0;
    assert Contributions(compiled, deliveries, key.target) == one + more;
    assert Repeated(output, one + more) == Repeated(output, one) + Repeated(output, more);
  }

  lemma {:induction false} DeliveriesSchedule(compiled: Compiled, state: RunState, source: Activation, output: string,
                                              deliveries: seq<Delivery>, sourceSet: Option<nat>, branchIndex: int,
                                              index: nat, key: JoinKey, node: string)
    requires index <= |deliveries|
    requires ScheduleDeliveries(compiled, state, source, output, deliveries, sourceSet, branchIndex, index).Ok?
    ensures var after :=
      ScheduleDeliveries(compiled, state, source, output, deliveries, sourceSet, branchIndex, index).value;
            && after.queue
                 == state.queue
                   + Branches(compiled, source, output, deliveries[index..], state.nextActSeq, sourceSet, branchIndex)
            && Collected(after, key, node)
                 == Collected(state, key, node) + Added(compiled, source, output, deliveries[index..], key, node)
    decreases |deliveries| - index
  {
    hide ScheduleDelivery, Branches, Added, Collected;
    var rest := deliveries[index..];
    if index < |deliveries| {
      var item := deliveries[index];
      assert rest[0] == item && rest[1..] == deliveries[index + 1..];
      var branches := if item.iter || item.target in compiled.joins then branchIndex else branchIndex + 1;
      DeliverySchedules(compiled, state, source, output, item, sourceSet, branchIndex, index);
      DeliveryContributes(compiled, state, source, output, item, sourceSet, branchIndex, index, key, node);
      var next := ScheduleDelivery(compiled, state, source, output, item, sourceSet, branchIndex, index).value;
      DeliveriesSchedule(compiled, next, source, output, deliveries, sourceSet, branches, index + 1, key, node);
      BranchesStep(compiled, source, output, rest, state.nextActSeq, sourceSet, branchIndex);
      AddedStep(compiled, source, output, rest, key, node);
    } else {
      assert rest == [];
      NothingDelivered(compiled, source, output, state.nextActSeq, sourceSet, branchIndex, key, node);
    }
  }

  lemma NothingDelivered(compiled: Compiled, source: Activation, output: string, id: nat, sourceSet: Option<nat>,
                         branchIndex: int, key: JoinKey, node: string)
    ensures Branches(compiled, source, output, [], id, sourceSet, branchIndex) == []
    ensures Added(compiled, source, output, [], key, node) == []
  {
  }

  // ----- closing -----

  lemma {:induction false} ClosingCollectsNothing(compiled: Compiled, state: RunState, source: Activation,
                                                  targets: seq<string>, selected: map<string, int>, key: JoinKey,
                                                  node: string)
    requires CloseAll(compiled, state, source, targets, selected).Ok?
    ensures Collected(CloseAll(compiled, state, source, targets, selected).value, key, node)
      == Collected(state, key, node)
    decreases |targets|
  {
    if targets != [] {
      if targets[0] in compiled.joins {
        var fed := FedJoin(compiled, source, targets[0]);
        var bucket := Close(BucketAt(state.buckets, fed), source, At(selected, targets[0])).value;
        ClosingCollectsNothing(compiled, state.(buckets := state.buckets[fed := bucket]), source, targets[1..],
                               selected, key, node);
      } else {
        ClosingCollectsNothing(compiled, state, source, targets[1..], selected, key, node);
      }
    }
  }

  // ----- a whole dispatch -----

  /** The branches of a dispatch, in its set if it has any branch or iterator. */
  function BranchesOf(compiled: Compiled, state: RunState, source: Activation, output: string,
                      deliveries: seq<Delivery>): seq<Activation> {
    var sourceSet := if Materialized(compiled, deliveries) == 0 && Iterated(deliveries) == 0 then None
      else Some(state.nextSetSeq);
    Branches(compiled, source, output, deliveries, state.nextActSeq, sourceSet, 0)
  }

  /** Routing puts exactly the branches the dispatch asks for at the end of the queue, in
      order and with their inputs, numbered on; a stop puts none. */
  lemma RouteSchedules(compiled: Compiled, state: RunState, source: Activation, output: string, dispatch: Dispatch)
    requires Route(compiled, state, source, output, dispatch).Ok?
    ensures Route(compiled, state, source, output, dispatch).value.queue
         == state.queue + if dispatch.stop then []
           else BranchesOf(compiled, state, source, output, DeliveriesOf(compiled, source.node, dispatch))
  {
    hide ScheduleDeliveries, CloseAll, Selected, Branches, Materialized, Iterated;
    var targets, deliveries := Targets(compiled.edges, source.node), DeliveriesOf(compiled, source.node, dispatch);
    var started := state.(routed := state.routed + [source.id]);
    if dispatch.stop {
      ClosingOnlyBuckets(compiled, started, source, targets, Selected(compiled, dispatch.deliveries));
    } else {
      var prepared := PrepareSourceSet(compiled, started, dispatch.(deliveries := deliveries)).value;
      var scheduled := ScheduleDeliveries(compiled, prepared.0, source, output, deliveries, prepared.1, 0, 0).value;
      DeliveriesSchedule(compiled, prepared.0, source, output, deliveries, prepared.1, 0, 0,
                         FedJoin(compiled, source, ""), "");
      assert deliveries[0..] == deliveries;
      ClosingOnlyBuckets(compiled, scheduled, source, targets, Selected(compiled, deliveries));
    }
  }

  /** Routing adds the output to each join as often as the dispatch delivers to it, and
      nothing else to any; a stop adds nothing. */
  lemma RouteContributes(compiled: Compiled, state: RunState, source: Activation, output: string, dispatch: Dispatch,
                         key: JoinKey, node: string)
    requires Route(compiled, state, source, output, dispatch).Ok?
    ensures Collected(Route(compiled, state, source, output, dispatch).value, key, node)
         == Collected(state, key, node)
            + if dispatch.stop then []
              else Added(compiled, source, output, DeliveriesOf(compiled, source.node, dispatch), key, node)
  {
    hide ScheduleDeliveries, CloseAll, Selected, Added, Materialized, Iterated;
    var targets, deliveries := Targets(compiled.edges, source.node), DeliveriesOf(compiled, source.node, dispatch);
    var started := state.(routed := state.routed + [source.id]);
    if dispatch.stop {
      ClosingCollectsNothing(compiled, started, source, targets, Selected(compiled, dispatch.deliveries), key, node);
    } else {
      var prepared := PrepareSourceSet(compiled, started, dispatch.(deliveries := deliveries)).value;
      var scheduled := ScheduleDeliveries(compiled, prepared.0, source, output, deliveries, prepared.1, 0, 0).value;
      DeliveriesSchedule(compiled, prepared.0, source, output, deliveries, prepared.1, 0, 0, key, node);
      assert deliveries[0..] == deliveries;
      ClosingCollectsNothing(compiled, scheduled, source, targets, Selected(compiled, deliveries), key, node);
    }
  }

  /** What was delivered to joins used the source's output, or routing would have failed. */
  lemma {:induction false} JoinsUseOutput(compiled: Compiled, state: RunState, source: Activation, output: string,
                                          deliveries: seq<Delivery>, sourceSet: Option<nat>, branchIndex: int,
                                          index: nat)
    requires index <= |deliveries|
    requires ScheduleDeliveries(compiled, state, source, output, deliveries, sourceSet, branchIndex, index).Ok?
    ensures forall i :: index <= i < |deliveries| ==> PlainToJoin(compiled, deliveries[i])
    decreases |deliveries| - index
  {
    if index < |deliveries| {
      var item := deliveries[index];
      var branches := if item.iter || item.target in compiled.joins then branchIndex else branchIndex + 1;
      assert PlainToJoin(compiled, item);
      hide ScheduleDelivery;
      JoinsUseOutput(compiled,
        ScheduleDelivery(compiled, state, source, output, item, sourceSet, branchIndex, index).value,
                     source, output, deliveries, sourceSet, branches, index + 1);
    }
  }

  predicate PlainToJoin(compiled: Compiled, item: Delivery) {
    item.target in compiled.joins ==> !item.iter && UsesOutput(item)
  }

  lemma {:induction false} SelectedAreContributions(compiled: Compiled, deliveries: seq<Delivery>, target: string)
    requires target in compiled.joins && forall i :: 0 <= i < |deliveries| ==> PlainToJoin(compiled, deliveries[i])
    ensures At(Selected(compiled, deliveries), target) == Contributions(compiled, deliveries, target)
  {
    if deliveries != [] {
      var last := |deliveries| - 1;
      SelectedAreContributions(compiled, deliveries[..last], target);
      ContributionsLast(compiled, deliveries, target);
    }
  }

  lemma {:induction false} ContributionsLast(compiled: Compiled, deliveries: seq<Delivery>, target: string)
    requires deliveries != []
    ensures Contributions(compiled, deliveries, target)
         == Contributions(compiled, deliveries[..|deliveries| - 1], target)
           + Contributions(compiled, [deliveries[|deliveries| - 1]], target)
  {
    var last := |deliveries| - 1;
    if last == 0 {
      assert deliveries == [deliveries[0]];
    } else {
      ContributionsLast(compiled, deliveries[1..], target);
      assert deliveries[1..][..last - 1] == deliveries[..last][1..];
    }
  }

  /** A join that fires is one activation of its target at the end of the queue, in the
      join's epoch; its bucket is emptied and no other is touched. */
  lemma FiringSchedules(state: RunState, key: JoinKey, input: string)
    ensures var after := MaterializeJoin(state, key, input);
            && after.queue == state.queue + [Activation(state.nextActSeq, key.target, input, None, 0, key.correlation)]
            && BucketAt(after.buckets, key) == JoinBucket(map[], map[])
            && forall other :: other != key ==> BucketAt(after.buckets, other) == BucketAt(state.buckets, other)
  {
  }
}
