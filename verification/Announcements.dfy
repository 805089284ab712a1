/** What joins are told of the activations that feed them, and that it is never taken
    back (workflow/join_expectation.go, workflow/settle.go). */
module Announcements {
  import opened Options
  import opened Topology
  import opened RunState
  import opened Joins
  import opened Scheduling

  /** What joins were told they still know. */
  ghost predicate StillTold(compiled: Compiled, before: RunState, after: RunState) {
    forall source, target :: Told(compiled, before, source, target) ==> Told(compiled, after, source, target)
  }

  lemma StillAllTold(compiled: Compiled, before: RunState, after: RunState, source: Activation)
    requires StillTold(compiled, before, after) && AllTold(compiled, before, source)
    ensures AllTold(compiled, after, source)
  {
  }

  lemma StillToldOn(compiled: Compiled, first: RunState, second: RunState, third: RunState)
    requires StillTold(compiled, first, second) && StillTold(compiled, second, third)
    ensures StillTold(compiled, first, third)
  {
  }

  lemma SameToldAs(compiled: Compiled, before: RunState, after: RunState)
    requires after.buckets == before.buckets && after.joined == before.joined
    ensures StillTold(compiled, before, after)
  {
  }

  /** One bucket has changed, and expects the same of everybody it expected nothing of. */
  lemma BucketStillTold(compiled: Compiled, before: RunState, after: RunState, key: JoinKey)
    requires key in after.buckets && after.buckets == before.buckets[key := after.buckets[key]]
    requires after.joined == before.joined
    requires forall source :: key in before.buckets && ExpectsNothing(before.buckets[key], source) ==>
      ExpectsNothing(after.buckets[key], source)
    ensures StillTold(compiled, before, after)
  {
    hide FedJoin, ExpectsNothing, Fired;
  }

  /** Closing what a bucket expects of one activation changes it for no other, and for
      that one only the first time. */
  lemma CloseStillTold(compiled: Compiled, before: RunState, key: JoinKey, source: Activation, expected: int)
    requires Close(BucketAt(before.buckets, key), source, expected).Ok?
    ensures var bucket := Close(BucketAt(before.buckets, key), source, expected).value;
            StillTold(compiled, before, before.(buckets := before.buckets[key := bucket]))
              && (expected == 0 ==> ExpectsNothing(bucket, source))
  {
    var bucket := Close(BucketAt(before.buckets, key), source, expected).value;
    BucketStillTold(compiled, before, before.(buckets := before.buckets[key := bucket]), key);
  }

  lemma {:induction false} CloseAllStillTold(compiled: Compiled, state: RunState, source: Activation,
                                             targets: seq<string>, selected: map<string, int>)
    requires CloseAll(compiled, state, source, targets, selected).Ok?
    ensures StillTold(compiled, state, CloseAll(compiled, state, source, targets, selected).value)
    decreases |targets|
  {
    hide StillTold, Close, BucketAt;
    if targets == [] {
      SameToldAs(compiled, state, state);
    } else if targets[0] !in compiled.joins {
      CloseAllStillTold(compiled, state, source, targets[1..], selected);
    } else {
      var key := FedJoin(compiled, source, targets[0]);
      var bucket := Close(BucketAt(state.buckets, key), source, At(selected, targets[0])).value;
      var next := state.(buckets := state.buckets[key := bucket]);
      CloseStillTold(compiled, state, key, source, At(selected, targets[0]));
      CloseAllStillTold(compiled, next, source, targets[1..], selected);
      StillToldOn(compiled, state, next, CloseAll(compiled, state, source, targets, selected).value);
    }
  }

  /** Closing the expectations of an activation that is not routed tells every join it
      could have fed. */
  lemma {:induction false} CloseAllTells(compiled: Compiled, state: RunState, source: Activation, targets: seq<string>,
                                         target: string)
    requires CloseAll(compiled, state, source, targets, map[]).Ok? && target in targets && target in compiled.joins
    ensures Told(compiled, CloseAll(compiled, state, source, targets, map[]).value, source, target)
    decreases |targets|
  {
    hide Close, BucketAt, ExpectsNothing;
    if targets[0] !in compiled.joins {
      CloseAllTells(compiled, state, source, targets[1..], target);
    } else {
      var key := FedJoin(compiled, source, targets[0]);
      var bucket := Close(BucketAt(state.buckets, key), source, 0).value;
      var next := state.(buckets := state.buckets[key := bucket]);
      CloseStillTold(compiled, state, key, source, 0);
      if target == targets[0] {
        assert Told(compiled, next, source, target);
        CloseAllStillTold(compiled, next, source, targets[1..], map[]);
      } else {
        CloseAllTells(compiled, next, source, targets[1..], target);
      }
    }
  }

  lemma CloseTells(compiled: Compiled, state: RunState, source: Activation)
    requires CloseJoinExpectations(compiled, state, source, map[]).Ok?
    ensures AllTold(compiled, CloseJoinExpectations(compiled, state, source, map[]).value, source)
    ensures StillTold(compiled, state, CloseJoinExpectations(compiled, state, source, map[]).value)
  {
    hide CloseAll, Told;
    var targets := Targets(compiled.edges, source.node);
    CloseAllStillTold(compiled, state, source, targets, map[]);
    forall target | target in targets && target in compiled.joins
      ensures Told(compiled, CloseAll(compiled, state, source, targets, map[]).value, source, target)
    {
      CloseAllTells(compiled, state, source, targets, target);
    }
  }

  lemma ContributionStillTold(compiled: Compiled, state: RunState, node: string, key: JoinKey, payload: string)
    ensures StillTold(compiled, state, AddContribution(state, node, key, payload))
  {
    BucketStillTold(compiled, state, AddContribution(state, node, key, payload), key);
  }

  lemma DeliveryStillTold(compiled: Compiled, state: RunState, source: Activation, output: string, item: Delivery,
                          id: Option<nat>, branchIndex: int, index: nat)
    requires ScheduleDelivery(compiled, state, source, output, item, id, branchIndex, index).Ok?
    ensures StillTold(compiled, state,
      ScheduleDelivery(compiled, state, source, output, item, id, branchIndex, index).value)
  {
    hide StillTold, AddContribution;
    var after := ScheduleDelivery(compiled, state, source, output, item, id, branchIndex, index).value;
    if !item.iter && item.target in compiled.joins {
      ContributionStillTold(compiled, state, source.node, FedJoin(compiled, source, item.target), output);
    } else {
      SameToldAs(compiled, state, after);
    }
  }

  lemma {:induction false} DeliveriesStillTold(compiled: Compiled, state: RunState, source: Activation, output: string,
                                               deliveries: seq<Delivery>, id: Option<nat>, branchIndex: int, index: nat)
    requires index <= |deliveries|
    requires ScheduleDeliveries(compiled, state, source, output, deliveries, id, branchIndex, index).Ok?
    ensures StillTold(compiled, state,
      ScheduleDeliveries(compiled, state, source, output, deliveries, id, branchIndex, index).value)
    decreases |deliveries| - index
  {
    hide StillTold, ScheduleDelivery;
    if index < |deliveries| {
      var item := deliveries[index];
      var branches := if item.iter || item.target in compiled.joins then branchIndex else branchIndex + 1;
      DeliveryStillTold(compiled, state, source, output, item, id, branchIndex, index);
      var next := ScheduleDelivery(compiled, state, source, output, item, id, branchIndex, index).value;
      DeliveriesStillTold(compiled, next, source, output, deliveries, id, branches, index + 1);
      StillToldOn(compiled, state, next,
                  ScheduleDeliveries(compiled, state, source, output, deliveries, id, branchIndex, index).value);
    } else {
      SameToldAs(compiled, state, state);
    }
  }

  /** Routing takes back nothing joins were told. */
  lemma RouteStillTold(compiled: Compiled, state: RunState, source: Activation, output: string, dispatch: Dispatch)
    requires Route(compiled, state, source, output, dispatch).Ok?
    ensures StillTold(compiled, state, Route(compiled, state, source, output, dispatch).value)
  {
    hide StillTold, ScheduleDeliveries, CloseAll, PrepareSourceSet, Selected;
    var started := state.(routed := state.routed + [source.id]);
    var after := Route(compiled, state, source, output, dispatch).value;
    SameToldAs(compiled, state, started);
    var targets := Targets(compiled.edges, source.node);
    if dispatch.stop {
      CloseAllStillTold(compiled, started, source, targets, Selected(compiled, dispatch.deliveries));
    } else {
      var deliveries := if dispatch.explicit then dispatch.deliveries
        else dispatch.deliveries + DefaultDeliveries(targets);
      var prepared := PrepareSourceSet(compiled, started, dispatch.(deliveries := deliveries)).value;
      PreparedStillTold(compiled, started, dispatch.(deliveries := deliveries));
      DeliveriesStillTold(compiled, prepared.0, source, output, deliveries, prepared.1, 0, 0);
      var scheduled := ScheduleDeliveries(compiled, prepared.0, source, output, deliveries, prepared.1, 0, 0).value;
      CloseAllStillTold(compiled, scheduled, source, targets, Selected(compiled, deliveries));
      StillToldOn(compiled, started, prepared.0, scheduled);
      StillToldOn(compiled, started, scheduled, after);
    }
    StillToldOn(compiled, state, started, after);
  }

  lemma PreparedStillTold(compiled: Compiled, state: RunState, dispatch: Dispatch)
    requires PrepareSourceSet(compiled, state, dispatch).Ok?
    ensures StillTold(compiled, state, PrepareSourceSet(compiled, state, dispatch).value.0)
  {
    hide Materialized, Iterated;
    SameToldAs(compiled, state, PrepareSourceSet(compiled, state, dispatch).value.0);
  }

  lemma ReleaseStillTold(compiled: Compiled, state: RunState, id: nat, branch: nat, dispatch: Dispatch)
    requires id in state.sourceSets && branch in state.sourceSets[id].outcomes
    requires ReleaseBranch(compiled, state, id, branch, dispatch).Ok?
    ensures StillTold(compiled, state, ReleaseBranch(compiled, state, id, branch, dispatch).value)
  {
    hide StillTold, Route;
    var outcome, after :=
      state.sourceSets[id].outcomes[branch], ReleaseBranch(compiled, state, id, branch, dispatch).value;
    if outcome.committed {
      SameToldAs(compiled, state, after);
    } else {
      var routed := Route(compiled, state, outcome.activation, outcome.result.output, dispatch).value;
      RouteStillTold(compiled, state, outcome.activation, outcome.result.output, dispatch);
      SameToldAs(compiled, routed, after);
      StillToldOn(compiled, state, routed, after);
    }
  }

  /** A join that fires need not be told any more. */
  lemma FiringStillTold(compiled: Compiled, state: RunState, key: JoinKey, input: string)
    ensures StillTold(compiled, state, MaterializeJoin(state, key, input))
  {
    var after := MaterializeJoin(state, key, input);
    assert after.joined[|state.joined|].key == key;
    forall source, target | Told(compiled, state, source, target)
      ensures Told(compiled, after, source, target)
    {
      if Fired(state.joined, FedJoin(compiled, source, target)) {
        var i :| 0 <= i < |state.joined| && state.joined[i].key == FedJoin(compiled, source, target);
        assert after.joined[i] == state.joined[i];
      }
    }
  }
}
