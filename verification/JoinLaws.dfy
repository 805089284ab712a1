/** What a join gets over a whole run, and how often a node is run for it
    (workflow/workflow.go, workflow/join_expectation.go). */
module JoinLaws {
  import opened Options
  import opened Topology
  import opened RunState
  import opened Joins
  import opened Conservation
  import opened Scheduling
  import opened RoutingSafety
  import opened SchedulingLaws
  import Codec
  import opened SchedulingRuns
  import opened Announcements
  import opened Deliveries

  // What an activation sent when it was routed.
  datatype Sending = Sending(source: Activation, output: string, deliveries: seq<Delivery>, stopped: bool)

  function SendingOf(compiled: Compiled, source: Activation, output: string, dispatch: Dispatch): Sending {
    if dispatch.stop then Sending(source, output, dispatch.deliveries, true)
    else Sending(source, output, DeliveriesOf(compiled, source.node, dispatch), false)
  }

  /** What a join gets of it: one that stops the run delivers nothing. */
  function Given(compiled: Compiled, sending: Sending, key: JoinKey, node: string): seq<string> {
    if sending.stopped then [] else Added(compiled, sending.source, sending.output, sending.deliveries, key, node)
  }

  /** How much the join was told to expect of it all the same. */
  function Withheld(compiled: Compiled, sending: Sending, key: JoinKey, node: string): int {
    if sending.stopped
      && FeedsFrom(compiled, sending.source, key, node) then At(Selected(compiled, sending.deliveries),
           key.target) else 0
  }

  /** The activation is of this node and announces to this join. */
  predicate FeedsFrom(compiled: Compiled, source: Activation, key: JoinKey, node: string) {
    && node == source.node && key == FedJoin(compiled, source, key.target)
    && key.target in Targets(compiled.edges, source.node) && key.target in compiled.joins
  }

  function AllWithheld(compiled: Compiled, sent: seq<Sending>, key: JoinKey, node: string): int {
    if sent == [] then 0
    else AllWithheld(compiled, sent[..|sent| - 1], key, node) + Withheld(compiled, sent[|sent| - 1], key, node)
  }

  /** What an operation of the scheduler sends. */
  function Sends(compiled: Compiled, state: RunState, operation: Operation): seq<Sending> {
    match operation
    case CommitStandalone(ran, dispatch) =>
      if ran.result.skipped then [] else [SendingOf(compiled, ran.activation, ran.result.output, dispatch)]
    case ReleaseOne(id, branch, dispatch) =>
      if id !in state.sourceSets || branch !in state.sourceSets[id].outcomes
        || state.sourceSets[id].outcomes[branch].committed then []
      else
        var outcome := state.sourceSets[id].outcomes[branch];
        [SendingOf(compiled, outcome.activation, outcome.result.output, dispatch)]
    case _ => []
  }

  /** What has been sent up to a state, in the order in which it was. */
  ghost function Sent(compiled: Compiled, states: seq<RunState>, turns: seq<Turn>, i: nat): seq<Sending>
    requires i < |states| == |turns| + 1
  {
    if i == 0 then []
    else
      match turns[i - 1]
      case Does(operation) =>
        Sent(compiled, states, turns, i - 1)
        + (if Performed(compiled, states[i - 1], operation) then Sends(compiled, states[i - 1], operation) else [])
      case Restarts(checkpoint, _) => if checkpoint < i then Sent(compiled, states, turns, checkpoint) else []
  }

  ghost predicate Performed(compiled: Compiled, state: RunState, operation: Operation) {
    Conserved(compiled, state) && Enabled(compiled, state, operation) && Perform(compiled, state, operation).Ok?
  }

  /** The inputs of a join from one node: the output of each of its activations that feed
      the join, as often as it was delivered to it, in the order of routing. */
  function Gathered(compiled: Compiled, sent: seq<Sending>, key: JoinKey, node: string): seq<string> {
    if sent == [] then []
    else
      Gathered(compiled, sent[..|sent| - 1], key, node) + Given(compiled, sent[|sent| - 1], key, node)
  }

  lemma GatheredMore(compiled: Compiled, sent: seq<Sending>, sending: Sending, key: JoinKey, node: string)
    ensures Gathered(compiled, sent + [sending], key, node)
      == Gathered(compiled, sent, key, node) + Given(compiled, sending, key, node)
    ensures AllWithheld(compiled, sent + [sending], key, node)
      == AllWithheld(compiled, sent, key, node) + Withheld(compiled, sending, key, node)
  {
    hide Given, Withheld;
    assert (sent + [sending])[..|sent|] == sent;
  }

  /** Until a join fires it has collected what was sent to it, and nothing else. */
  ghost predicate Gathers(compiled: Compiled, state: RunState, sent: seq<Sending>) {
    && |sent| == |state.routed| && (forall i :: 0 <= i < |sent| ==> sent[i].source.id == state.routed[i])
    && (forall key, node :: !Fired(state.joined, key) ==> CollectsWhatWasSent(compiled, state, sent, key, node))
  }

  /** Beyond that, it expects only what stopping activations withheld. */
  ghost predicate CollectsWhatWasSent(compiled: Compiled, state: RunState, sent: seq<Sending>, key: JoinKey,
                                      node: string) {
    && Collected(state, key, node) == Gathered(compiled, sent, key, node)
    && Sum(ExpectedBy(state, key, node))
         == |Gathered(compiled, sent, key, node)| + AllWithheld(compiled, sent, key, node)
  }

  function ExpectedBy(state: RunState, key: JoinKey, node: string): map<nat, int> {
    Expected(BucketAt(state.buckets, key), node)
  }

  ghost predicate SameJoins(before: RunState, after: RunState) {
    after.buckets == before.buckets && after.routed == before.routed && after.joined == before.joined
  }

  lemma SameJoinsGather(compiled: Compiled, before: RunState, after: RunState, sent: seq<Sending>)
    requires Gathers(compiled, before, sent) && SameJoins(before, after)
    ensures Gathers(compiled, after, sent)
  {
    hide Gathered, Fired, AllWithheld, Sum;
    forall key, node | !Fired(after.joined, key)
      ensures CollectsWhatWasSent(compiled, after, sent, key, node)
    {
      assert CollectsWhatWasSent(compiled, before, sent, key, node);
    }
  }

  // ----- totals -----

  lemma {:induction false} SumWithout(counts: map<nat, int>, id: nat)
    requires id in counts
    ensures Sum(counts) == counts[id] + Sum(counts - {id})
    decreases |counts|
  {
    HasLeast(counts.Keys);
    var least :| IsLeast(counts.Keys, least);
    assert Sum(counts) == counts[least] + Sum(counts - {least});
    if id != least {
      Smaller(counts, least);
      Smaller(counts, id);
      SumWithout(counts - {least}, id);
      SumWithout(counts - {id}, least);
      assert counts - {least} - {id} == counts - {id} - {least};
    }
  }

  lemma Smaller(counts: map<nat, int>, id: nat)
    requires id in counts
    ensures |counts - {id}| < |counts|
  {
    assert (counts - {id}).Keys == counts.Keys - {id};
  }

  lemma SumUpdated(counts: map<nat, int>, id: nat, count: int)
    ensures Sum(counts[id := count]) == Sum(counts) - At0(counts, id) + count
  {
    var updated := counts[id := count];
    SumWithout(updated, id);
    assert updated - {id} == counts - {id};
    if id in counts {
      SumWithout(counts, id);
    } else {
      assert counts - {id} == counts;
    }
  }

  function At0(counts: map<nat, int>, id: nat): int {
    if id in counts then counts[id] else 0
  }

  /** What a bucket expects once an activation's expectations are closed. */
  lemma {:induction false} ClosedExpects(compiled: Compiled, state: RunState, source: Activation, targets: seq<string>,
                                         selected: map<string, int>, key: JoinKey, node: string)
    requires CloseAll(compiled, state, source, targets, selected).Ok?
    ensures var before, after :=
      ExpectedBy(state, key, node), ExpectedBy(CloseAll(compiled, state, source, targets, selected).value, key, node);
            && after == (if node == source.node && key == FedJoin(compiled, source, key.target) && key.target in targets
                 && key.target in compiled.joins
                         then before[source.id := At(selected, key.target)] else before)
            && (after != before && source.id in before ==> before[source.id] == At(selected, key.target))
    decreases |targets|
  {
    if targets != [] {
      if targets[0] in compiled.joins {
        var fed := FedJoin(compiled, source, targets[0]);
        var bucket := Close(BucketAt(state.buckets, fed), source, At(selected, targets[0])).value;
        ClosedExpects(compiled, state.(buckets := state.buckets[fed := bucket]), source, targets[1..], selected, key,
                      node);
      } else {
        ClosedExpects(compiled, state, source, targets[1..], selected, key, node);
      }
    }
  }

  // ----- what sends nothing -----

  /** Closing the expectations of an activation that is not routed adds no input. */
  lemma CloseGathers(compiled: Compiled, state: RunState, source: Activation, sent: seq<Sending>)
    requires Gathers(compiled, state, sent) && JoinsSound(compiled, View(state), None) && source.id !in state.routed
    requires CloseJoinExpectations(compiled, state, source, map[]).Ok?
    ensures Gathers(compiled, CloseJoinExpectations(compiled, state, source, map[]).value, sent)
  {
    hide Gathered, Fired, CloseAll, Collected, AllWithheld, Sum, JoinsSound, ExpectedBy;
    var targets := Targets(compiled.edges, source.node);
    var after := CloseJoinExpectations(compiled, state, source, map[]).value;
    ClosingOnlyBuckets(compiled, state, source, targets, map[]);
    forall key, node | !Fired(state.joined, key)
      ensures CollectsWhatWasSent(compiled, after, sent, key, node)
    {
      assert CollectsWhatWasSent(compiled, state, sent, key, node);
      ClosingCollectsNothing(compiled, state, source, targets, map[], key, node);
      ClosedExpects(compiled, state, source, targets, map[], key, node);
      SumUpdated(ExpectedBy(state, key, node), source.id, 0);
      UnroutedExpectsZero(compiled, state, source.id, key, node);
    }
  }

  /** Of an activation that was not routed nothing has been announced but zero. */
  lemma UnroutedExpectsZero(compiled: Compiled, state: RunState, id: nat, key: JoinKey, node: string)
    requires JoinsSound(compiled, View(state), None) && id !in state.routed
    ensures At0(ExpectedBy(state, key, node), id) == 0
  {
    BucketIsSound(compiled, View(state), key, None);
    hide JoinsSound;
    assert HeardSound(compiled, Places(state.activations), state.routed, key, BucketAt(state.buckets, key), node, id);
  }

  /** A join that has fired is not looked at any more. */
  lemma FireGathers(compiled: Compiled, state: RunState, key: JoinKey, input: string, sent: seq<Sending>)
    requires Gathers(compiled, state, sent)
    ensures Gathers(compiled, MaterializeJoin(state, key, input), sent)
  {
    hide Gathered, Enqueue, AllWithheld, Sum;
    var after := MaterializeJoin(state, key, input);
    FiringSchedules(state, key, input);
    FiredMore(state.joined, Joining(key, state.nextActSeq));
    FiringRoutes(state, key, input);
    hide MaterializeJoin, Fired;
    forall other, node | !Fired(after.joined, other)
      ensures CollectsWhatWasSent(compiled, after, sent, other, node)
    {
      assert CollectsWhatWasSent(compiled, state, sent, other, node);
    }
  }

  lemma FiringRoutes(state: RunState, key: JoinKey, input: string)
    ensures MaterializeJoin(state, key, input).routed == state.routed
    ensures MaterializeJoin(state, key, input).joined == state.joined + [Joining(key, state.nextActSeq)]
  {
  }

  lemma FiredMore(joined: seq<Joining>, joining: Joining)
    ensures forall key :: Fired(joined + [joining], key) <==> Fired(joined, key) || key == joining.key
  {
    var more := joined + [joining];
    assert more[|joined|] == joining;
    assert forall i :: 0 <= i < |joined| ==> more[i] == joined[i];
  }

  // ----- what sends -----

  lemma RouteGathers(compiled: Compiled, state: RunState, source: Activation, output: string, dispatch: Dispatch,
                     sent: seq<Sending>)
    requires Gathers(compiled, state, sent) && JoinsSound(compiled, View(state), None) && source.id !in state.routed
    requires Route(compiled, state, source, output, dispatch).Ok?
    ensures Gathers(compiled, Route(compiled, state, source, output, dispatch).value, sent
      + [SendingOf(compiled, source, output, dispatch)])
  {
    hide Gathered, Fired, Given, Withheld, Collected, Route, AllWithheld, Sum, ExpectedBy, JoinsSound;
    var after, sending :=
      Route(compiled, state, source, output, dispatch).value, SendingOf(compiled, source, output, dispatch);
    RoutingIsRecorded(compiled, state, source, output, dispatch);
    forall key, node | !Fired(after.joined, key)
      ensures CollectsWhatWasSent(compiled, after, sent + [sending], key, node)
    {
      assert CollectsWhatWasSent(compiled, state, sent, key, node);
      RouteGives(compiled, state, source, output, dispatch, key, node);
      GatheredMore(compiled, sent, sending, key, node);
      RouteExpects(compiled, state, source, output, dispatch, key, node);
    }
  }

  lemma RouteGives(compiled: Compiled, state: RunState, source: Activation, output: string, dispatch: Dispatch,
                   key: JoinKey, node: string)
    requires Route(compiled, state, source, output, dispatch).Ok?
    ensures Collected(Route(compiled, state, source, output, dispatch).value, key, node)
         == Collected(state, key, node) + Given(compiled, SendingOf(compiled, source, output, dispatch), key, node)
  {
    hide Route, Added, Collected;
    RouteContributes(compiled, state, source, output, dispatch, key, node);
  }

  /** A join is told to expect what it is given, and what is withheld. */
  lemma RouteExpects(compiled: Compiled, state: RunState, source: Activation, output: string, dispatch: Dispatch,
                     key: JoinKey, node: string)
    requires JoinsSound(compiled, View(state), None) && source.id !in state.routed
    requires Route(compiled, state, source, output, dispatch).Ok?
    ensures var sending := SendingOf(compiled, source, output, dispatch);
            Sum(ExpectedBy(Route(compiled, state, source, output, dispatch).value, key, node))
            == Sum(ExpectedBy(state, key, node)) + |Given(compiled, sending, key, node)|
              + Withheld(compiled, sending, key, node)
  {
    hide ScheduleDeliveries, CloseAll, Selected, Materialized, Iterated, JoinsSound, Sum, Added;
    var targets, deliveries := Targets(compiled.edges, source.node), DeliveriesOf(compiled, source.node, dispatch);
    var started := state.(routed := state.routed + [source.id]);
    UnroutedExpectsZero(compiled, state, source.id, key, node);
    if dispatch.stop {
      ClosedExpects(compiled, started, source, targets, Selected(compiled, dispatch.deliveries), key, node);
      SumUpdated(ExpectedBy(state, key, node), source.id, At(Selected(compiled, dispatch.deliveries), key.target));
    } else {
      var prepared := PrepareSourceSet(compiled, started, dispatch.(deliveries := deliveries)).value;
      var scheduled := ScheduleDeliveries(compiled, prepared.0, source, output, deliveries, prepared.1, 0, 0).value;
      DeliveriesExpect(compiled, prepared.0, source, output, deliveries, prepared.1, 0, 0, key, node);
      ClosedExpects(compiled, scheduled, source, targets, Selected(compiled, deliveries), key, node);
      SumUpdated(ExpectedBy(state, key, node), source.id, At(Selected(compiled, deliveries), key.target));
      JoinsUseOutput(compiled, prepared.0, source, output, deliveries, prepared.1, 0, 0);
      DeliveredToTargets(compiled, prepared.0, source, output, deliveries, prepared.1, 0, 0);
      AddedIsSelected(compiled, source, output, deliveries, key, node);
    }
  }

  /** As much is added to a join as was selected for it. */
  lemma AddedIsSelected(compiled: Compiled, source: Activation, output: string, deliveries: seq<Delivery>, key: JoinKey,
                        node: string)
    requires forall i :: 0 <= i < |deliveries| ==>
      PlainToJoin(compiled, deliveries[i]) && deliveries[i].target in Targets(compiled.edges, source.node)
    ensures |Added(compiled, source, output, deliveries, key, node)|
         == if FeedsFrom(compiled, source, key, node) then At(Selected(compiled, deliveries), key.target) else 0
  {
    hide Selected, Contributions;
    if key.target in compiled.joins {
      SelectedAreContributions(compiled, deliveries, key.target);
    }
    NoContributions(compiled, source, deliveries, key.target);
  }

  lemma {:induction false} NoContributions(compiled: Compiled, source: Activation, deliveries: seq<Delivery>,
                                           target: string)
    requires forall i :: 0 <= i < |deliveries| ==> deliveries[i].target in Targets(compiled.edges, source.node)
    ensures target !in Targets(compiled.edges, source.node) || target !in compiled.joins ==>
      Contributions(compiled, deliveries, target) == 0
  {
    if deliveries != [] {
      NoContributions(compiled, source, deliveries[1..], target);
    }
  }

  /** Deliveries announce nothing. */
  lemma {:induction false} DeliveriesExpect(compiled: Compiled, state: RunState, source: Activation, output: string,
                                            deliveries: seq<Delivery>, sourceSet: Option<nat>, branchIndex: int,
                                            index: nat, key: JoinKey, node: string)
    requires index <= |deliveries|
    requires ScheduleDeliveries(compiled, state, source, output, deliveries, sourceSet, branchIndex, index).Ok?
    ensures ExpectedBy(ScheduleDeliveries(compiled, state, source, output, deliveries, sourceSet, branchIndex,
      index).value, key, node)
         == ExpectedBy(state, key, node)
    decreases |deliveries| - index
  {
    hide ExpectedBy;
    if index < |deliveries| {
      var item := deliveries[index];
      var branches := if item.iter || item.target in compiled.joins then branchIndex else branchIndex + 1;
      var next := ScheduleDelivery(compiled, state, source, output, item, sourceSet, branchIndex, index).value;
      DeliveryExpects(compiled, state, source, output, item, sourceSet, branchIndex, index, key, node);
      hide ScheduleDelivery;
      DeliveriesExpect(compiled, next, source, output, deliveries, sourceSet, branches, index + 1, key, node);
    }
  }

  lemma DeliveryExpects(compiled: Compiled, state: RunState, source: Activation, output: string, item: Delivery,
                        sourceSet: Option<nat>, branchIndex: int, index: nat, key: JoinKey, node: string)
    requires ScheduleDelivery(compiled, state, source, output, item, sourceSet, branchIndex, index).Ok?
    ensures ExpectedBy(ScheduleDelivery(compiled, state, source, output, item, sourceSet, branchIndex,
      index).value, key, node)
         == ExpectedBy(state, key, node)
  {
    hide NextCorrelation, Targets;
  }

  lemma {:induction false} DeliveredToTargets(compiled: Compiled, state: RunState, source: Activation, output: string,
                                              deliveries: seq<Delivery>, sourceSet: Option<nat>, branchIndex: int,
                                              index: nat)
    requires index <= |deliveries|
    requires ScheduleDeliveries(compiled, state, source, output, deliveries, sourceSet, branchIndex, index).Ok?
    ensures forall i :: index <= i < |deliveries| ==> deliveries[i].target in Targets(compiled.edges, source.node)
    decreases |deliveries| - index
  {
    if index < |deliveries| {
      var item := deliveries[index];
      var branches := if item.iter || item.target in compiled.joins then branchIndex else branchIndex + 1;
      var next := ScheduleDelivery(compiled, state, source, output, item, sourceSet, branchIndex, index).value;
      assert item.target in Targets(compiled.edges, source.node);
      hide ScheduleDelivery;
      DeliveredToTargets(compiled, next, source, output, deliveries, sourceSet, branches, index + 1);
    }
  }

  lemma RoutingIsRecorded(compiled: Compiled, state: RunState, source: Activation, output: string, dispatch: Dispatch)
    requires Route(compiled, state, source, output, dispatch).Ok?
    ensures var after := Route(compiled, state, source, output, dispatch).value;
            after.routed == state.routed + [source.id] && after.joined == state.joined
  {
    hide ScheduleDeliveries, CloseAll, Selected, Materialized, Iterated;
    var targets, deliveries := Targets(compiled.edges, source.node), DeliveriesOf(compiled, source.node, dispatch);
    var started := state.(routed := state.routed + [source.id]);
    if dispatch.stop {
      ClosingOnlyBuckets(compiled, started, source, targets, Selected(compiled, dispatch.deliveries));
    } else {
      var prepared := PrepareSourceSet(compiled, started, dispatch.(deliveries := deliveries)).value;
      DeliveriesRecordNothing(compiled, prepared.0, source, output, deliveries, prepared.1, 0, 0);
      var scheduled := ScheduleDeliveries(compiled, prepared.0, source, output, deliveries, prepared.1, 0, 0).value;
      ClosingOnlyBuckets(compiled, scheduled, source, targets, Selected(compiled, deliveries));
    }
  }

  lemma {:induction false} DeliveriesRecordNothing(compiled: Compiled, state: RunState, source: Activation,
                                                   output: string, deliveries: seq<Delivery>, sourceSet: Option<nat>,
                                                   branchIndex: int, index: nat)
    requires index <= |deliveries|
    requires ScheduleDeliveries(compiled, state, source, output, deliveries, sourceSet, branchIndex, index).Ok?
    ensures var after :=
      ScheduleDeliveries(compiled, state, source, output, deliveries, sourceSet, branchIndex, index).value;
            after.routed == state.routed && after.joined == state.joined
    decreases |deliveries| - index
  {
    if index < |deliveries| {
      var item := deliveries[index];
      var branches := if item.iter || item.target in compiled.joins then branchIndex else branchIndex + 1;
      var next := ScheduleDelivery(compiled, state, source, output, item, sourceSet, branchIndex, index).value;
      DeliveryRecordsNothing(compiled, state, source, output, item, sourceSet, branchIndex, index);
      hide ScheduleDelivery;
      DeliveriesRecordNothing(compiled, next, source, output, deliveries, sourceSet, branches, index + 1);
    }
  }

  lemma DeliveryRecordsNothing(compiled: Compiled, state: RunState, source: Activation, output: string, item: Delivery,
                               sourceSet: Option<nat>, branchIndex: int, index: nat)
    requires ScheduleDelivery(compiled, state, source, output, item, sourceSet, branchIndex, index).Ok?
    ensures var after := ScheduleDelivery(compiled, state, source, output, item, sourceSet, branchIndex, index).value;
            after.routed == state.routed && after.joined == state.joined
  {
    hide NextCorrelation, Targets;
  }

  lemma CommitGathers(compiled: Compiled, state: RunState, ran: Ran, dispatch: Dispatch, sent: seq<Sending>)
    requires Gathers(compiled, state, sent) && Conserved(compiled, state)
    requires CommitActivation(compiled, state, ran, dispatch).Ok?
    requires state.queue != [] && ran.activation == state.queue[0] && ran.activation.sourceSet.None? && ran.cause.None?
    ensures Gathers(compiled, CommitActivation(compiled, state, ran, dispatch).value,
                    sent + if ran.result.skipped then []
                      else [SendingOf(compiled, ran.activation, ran.result.output, dispatch)])
  {
    hide Gathers, Route, CloseJoinExpectations, SendingOf, JoinsSound, QueueSound, SetsSound, ItersSound, RoutingSound;
    hide Finish;
    var finished := Finish(state, ran).value;
    FinishKeepsJoins(state, ran);
    FinishedIsAlone(state, ran);
    FinishingKeeps(compiled, state, ran, finished);
    SameJoinsGather(compiled, state, finished, sent);
    if ran.result.skipped {
      CloseGathers(compiled, finished, ran.activation, sent);
      assert sent + [] == sent;
    } else {
      RouteGathers(compiled, finished, ran.activation, ran.result.output, dispatch, sent);
    }
  }

  lemma FinishKeepsJoins(state: RunState, ran: Ran)
    requires Finish(state, ran).Ok?
    ensures SameJoins(state, Finish(state, ran).value)
  {
  }

  lemma ReleaseGathers(compiled: Compiled, state: RunState, id: nat, branch: nat, dispatch: Dispatch,
                       sent: seq<Sending>)
    requires Gathers(compiled, state, sent) && id in state.sourceSets && branch in state.sourceSets[id].outcomes
    requires Conserved(compiled, state) && branch in state.sourceSets[id].selected
    requires ReleaseBranch(compiled, state, id, branch, dispatch).Ok?
    ensures Gathers(compiled, ReleaseBranch(compiled, state, id, branch, dispatch).value,
                    sent + Sends(compiled, state, ReleaseOne(id, branch, dispatch)))
  {
    hide SetSound, Gathers, Route, SendingOf;
    var outcome := state.sourceSets[id].outcomes[branch];
    SelectedIsDecided(compiled, state, id, branch);
    OutcomeFacts(compiled, state, id, branch);
    hide QueueSound, SetsSound, ItersSound, RoutingSound, JoinsSound;
    if outcome.committed {
      assert sent + [] == sent;
    } else {
      var routed := Route(compiled, state, outcome.activation, outcome.result.output, dispatch).value;
      var after := ReleaseBranch(compiled, state, id, branch, dispatch).value;
      RouteGathers(compiled, state, outcome.activation, outcome.result.output, dispatch, sent);
      SameJoinsGather(compiled, routed, after, sent + Sends(compiled, state, ReleaseOne(id, branch, dispatch)));
    }
  }

  // ----- every operation -----

  /** Operations that look at no join. */
  predicate Apart(operation: Operation) {
    !operation.CommitStandalone? && !operation.FireJoin? && !operation.CloseOne? && !operation.ReleaseOne?
  }

  lemma ApartKeepsJoins(compiled: Compiled, state: RunState, operation: Operation)
    requires Performed(compiled, state, operation) && Apart(operation)
    ensures SameJoins(state, Perform(compiled, state, operation).value)
  {
    hide Conserved, StartActivation, CommitBranch, RetryActivation, InterruptActivation, PrepareResume;
    hide DecideSet, FailSet, CancelNext, Supersede, SettleSet, PullItem, CloseIter, FailIter;
    match operation
    case StartOne(_) => RecordsKeepJoins(state, operation);
    case CommitOne(ran) => CommitKeepsJoins(state, ran);
    case RetryOne(_, _) => RecordsKeepJoins(state, operation);
    case InterruptOne(_) => RecordsKeepJoins(state, operation);
    case ResumeAll(resolved) => ResumeKeepsJoins(state, resolved);
    case Decided(id, selected) => DecidingKeepsJoins(state, id, selected);
    case FailedSet(id) => DecidingKeepsJoins(state, id, []);
    case CancelOne(id) => CancelKeepsJoins(state, id);
    case SupersedeOne(id, branch) => SupersedeKeepsJoins(state, id, branch);
    case Settled(id) => DecidingKeepsJoins(state, id, []);
    case Pulled(iter, value, cursor) => PullKeepsJoins(compiled, state, iter, value, cursor);
    case Exhausted(iter) => ExhaustKeepsJoins(state, iter);
    case FailedIter(iter, cause) => FailIterKeepsJoins(compiled, state, iter, cause);
    case Permuted(_) =>
    case Numbered(_) =>
  }

  lemma RecordsKeepJoins(state: RunState, operation: Operation)
    ensures operation.StartOne? && StartActivation(state, operation.id).Ok? ==>
      SameJoins(state, StartActivation(state, operation.id).value)
    ensures operation.RetryOne? && RetryActivation(state, operation.id, operation.input).Ok? ==>
              SameJoins(state, RetryActivation(state, operation.id, operation.input).value)
    ensures operation.InterruptOne? && InterruptActivation(state, operation.id).Ok? ==>
              SameJoins(state, InterruptActivation(state, operation.id).value)
  {
  }

  lemma CommitKeepsJoins(state: RunState, ran: Ran)
    requires CommitBranch(state, ran).Ok?
    ensures SameJoins(state, CommitBranch(state, ran).value)
  {
    FinishKeepsJoins(state, ran);
    hide Finish;
  }

  lemma DecidingKeepsJoins(state: RunState, id: nat, selected: seq<nat>)
    requires id in state.sourceSets
    ensures SameJoins(state, DecideSet(state, id, selected)) && SameJoins(state, FailSet(state, id))
    ensures SameJoins(state, SettleSet(state, id))
  {
  }

  lemma CancelKeepsJoins(state: RunState, id: nat)
    requires id in state.sourceSets && CancelNext(state, id).Ok?
    ensures SameJoins(state, CancelNext(state, id).value)
  {
    hide NextUnselected;
  }

  lemma SupersedeKeepsJoins(state: RunState, id: nat, branch: nat)
    requires id in state.sourceSets && branch in state.sourceSets[id].outcomes
    ensures SameJoins(state, Supersede(state, id, branch))
  {
  }

  lemma PullKeepsJoins(compiled: Compiled, state: RunState, iter: nat, value: string, cursor: Option<string>)
    requires PullItem(compiled, state, iter, value, cursor).Ok?
    ensures SameJoins(state, PullItem(compiled, state, iter, value, cursor).value)
  {
    hide NextCorrelation;
  }

  lemma ExhaustKeepsJoins(state: RunState, iter: nat)
    requires CloseIter(state, iter).Ok?
    ensures SameJoins(state, CloseIter(state, iter).value)
  {
  }

  lemma FailIterKeepsJoins(compiled: Compiled, state: RunState, iter: nat, cause: Cause)
    requires Conserved(compiled, state) && iter in state.iterSources
    ensures state.iterSources[iter].sourceSet in state.sourceSets && SameJoins(state, FailIter(state, iter, cause))
  {
    assert IterAt(compiled, state, state.iterSources[iter]);
    hide Conserved;
  }

  lemma PerformGathers(compiled: Compiled, state: RunState, operation: Operation, sent: seq<Sending>)
    requires Performed(compiled, state, operation) && Gathers(compiled, state, sent)
    ensures Gathers(compiled, Perform(compiled, state, operation).value, sent + Sends(compiled, state, operation))
  {
    hide Gathers, Conserved, SendingOf, Enabled;
    if Apart(operation) {
      ApartKeepsJoins(compiled, state, operation);
      assert sent + Sends(compiled, state, operation) == sent;
      SameJoinsGather(compiled, state, Perform(compiled, state, operation).value, sent);
    } else {
      OtherGathers(compiled, state, operation, sent);
    }
  }

  lemma UnselectedIsUnrouted(compiled: Compiled, state: RunState, id: nat, branch: nat)
    requires Conserved(compiled, state) && Enabled(compiled, state, CloseOne(id, branch))
    ensures JoinsSound(compiled, View(state), None)
    ensures state.sourceSets[id].outcomes[branch].activation.id !in state.routed
  {
    OutcomeFacts(compiled, state, id, branch);
    hide QueueSound, SetsSound, ItersSound, RoutingSound, JoinsSound;
  }

  lemma OtherGathers(compiled: Compiled, state: RunState, operation: Operation, sent: seq<Sending>)
    requires Performed(compiled, state, operation) && Gathers(compiled, state, sent) && !Apart(operation)
    ensures Gathers(compiled, Perform(compiled, state, operation).value, sent + Sends(compiled, state, operation))
  {
    hide Gathers, Conserved, SendingOf, CommitActivation, ReleaseBranch, MaterializeJoin, CloseJoinExpectations;
    assert sent + [] == sent;
    match operation
    case CommitStandalone(ran, dispatch) => CommitGathers(compiled, state, ran, dispatch, sent);
    case FireJoin(key, input) => FireGathers(compiled, state, key, input, sent);
    case CloseOne(id, branch) =>
      UnselectedIsUnrouted(compiled, state, id, branch);
      CloseGathers(compiled, state, state.sourceSets[id].outcomes[branch].activation, sent);
    case ReleaseOne(id, branch, dispatch) => ReleaseGathers(compiled, state, id, branch, dispatch, sent);
  }

  lemma {:induction false} EveryStateGathers(compiled: Compiled, states: seq<RunState>, turns: seq<Turn>, i: nat)
    requires Wired(compiled) && Reached(compiled, states, turns) && i < |states|
    ensures Gathers(compiled, states[i], Sent(compiled, states, turns, i))
    decreases i
  {
    hide Gathers, Conserved, Perform, Enabled, Resumption, Sends, Codec.Kept;
    if i == 0 {
      var runID, input :| states[0] == Initial(compiled, runID, input);
      InitialGathers(compiled, runID, input);
    } else {
      assert Turned(compiled, states[..i], turns[i - 1], states[i]);
      EveryStateIsConserved(compiled, states, turns, i - 1);
      match turns[i - 1]
      case Does(operation) =>
        EveryStateGathers(compiled, states, turns, i - 1);
        var before := Sent(compiled, states, turns, i - 1);
        assert before + [] == before;
        if Performed(compiled, states[i - 1], operation) {
          PerformGathers(compiled, states[i - 1], operation, Sent(compiled, states, turns, i - 1));
        }
      case Restarts(checkpoint, resolved) =>
        EveryStateGathers(compiled, states, turns, checkpoint);
        EveryStateIsSound(compiled, states, turns, checkpoint);
        ResumptionKeepsJoins(compiled, states[checkpoint], resolved);
        SameJoinsGather(compiled, states[checkpoint], states[i], Sent(compiled, states, turns, checkpoint));
    }
  }

  /** Joins come back from a checkpoint as they were saved. */
  lemma ResumptionKeepsJoins(compiled: Compiled, state: RunState, resolved: bool)
    requires Conserved(compiled, state) && Codec.Kept(state)
    ensures SameJoins(state, Resumption(state, resolved))
  {
    Codec.RoundTrip(compiled, state);
    hide Conserved, Codec.Kept, Codec.Encode, Codec.Restore;
  }

  lemma ResumeKeepsJoins(state: RunState, resolved: bool)
    ensures SameJoins(state, PrepareResume(state, resolved))
  {
  }

  lemma InitialGathers(compiled: Compiled, runID: string, input: string)
    ensures Gathers(compiled, Initial(compiled, runID, input), [])
  {
  }

  // ----- what that says -----

  /** The activation is one of this node's that feed the join. */
  predicate Feeds(compiled: Compiled, state: RunState, key: JoinKey, node: string, id: nat) {
    && id in state.activations && state.activations[id].activation.node == node
    && state.activations[id].activation.correlation == FeedingCorrelation(compiled, key, node)
  }

  predicate AnnouncedNothing(bucket: JoinBucket, node: string, id: nat) {
    id in Expected(bucket, node) && Expected(bucket, node)[id] == 0
  }

  /** A join becomes ready only if no activation that stopped the run and feeds it had
      selected it: what it was told to expect of such a one never comes. */
  lemma StoppedJoinNeverFires(compiled: Compiled, states: seq<RunState>, turns: seq<Turn>, i: nat, key: JoinKey,
                              at: nat)
    requires Wired(compiled) && Reached(compiled, states, turns) && i < |states|
    requires at < |Sent(compiled, states, turns, i)|
    requires var sending := Sent(compiled, states, turns, i)[at];
             && sending.stopped && FeedsFrom(compiled, sending.source, key, sending.source.node)
             && At(Selected(compiled, sending.deliveries), key.target) > 0
    ensures !JoinReady(compiled, states[i], key)
  {
    var state, sent := states[i], Sent(compiled, states, turns, i);
    EveryStateGathers(compiled, states, turns, i);
    EveryStateIsConserved(compiled, states, turns, i);
    hide Gathered, Sent, JoinReady, Reached, AllWithheld, Sum, Withheld, Conserved;
    if JoinReady(compiled, state, key) {
      var node := sent[at].source.node;
      NotYetFired(compiled, state, key);
      NodeIsReady(compiled, state, key, node);
      assert CollectsWhatWasSent(compiled, state, sent, key, node);
      WithheldStays(compiled, sent, key, node, at);
      WithheldIs(compiled, sent[at], key);
    }
  }

  lemma NodeIsReady(compiled: Compiled, state: RunState, key: JoinKey, node: string)
    requires Wired(compiled) && JoinReady(compiled, state, key) && key.target in Targets(compiled.edges, node)
    ensures |Collected(state, key, node)| == Sum(ExpectedBy(state, key, node))
  {
    hide Sum;
    assert node in Targets(compiled.predecessors, key.target);
  }

  lemma WithheldIs(compiled: Compiled, sending: Sending, key: JoinKey)
    requires sending.stopped && FeedsFrom(compiled, sending.source, key, sending.source.node)
    ensures Withheld(compiled, sending, key, sending.source.node)
      == At(Selected(compiled, sending.deliveries), key.target)
  {
  }

  lemma {:induction false} WithheldStays(compiled: Compiled, sent: seq<Sending>, key: JoinKey, node: string, at: nat)
    requires at < |sent|
    ensures AllWithheld(compiled, sent, key, node) >= Withheld(compiled, sent[at], key, node) >= 0
    decreases |sent|
  {
    var last := |sent| - 1;
    SelectedCounts(compiled, sent[last].deliveries);
    SelectedCounts(compiled, sent[at].deliveries);
    if at < last {
      WithheldStays(compiled, sent[..last], key, node, at);
    } else {
      NothingOwed(compiled, sent[..last], key, node);
    }
  }

  lemma {:induction false} NothingOwed(compiled: Compiled, sent: seq<Sending>, key: JoinKey, node: string)
    ensures AllWithheld(compiled, sent, key, node) >= 0
  {
    if sent != [] {
      SelectedCounts(compiled, sent[|sent| - 1].deliveries);
      NothingOwed(compiled, sent[..|sent| - 1], key, node);
    }
  }

  /** When a join is ready, what it has collected of a node is the output of each of the
      node's activations that was routed and feeds it, once for each delivery to it and in
      the order of routing; and of all those that feed it, the ones that have not been
      routed were announced to contribute nothing. */
  lemma JoinGetsWhatWasSent(compiled: Compiled, states: seq<RunState>, turns: seq<Turn>, i: nat, key: JoinKey,
                            node: string)
    requires Wired(compiled) && Reached(compiled, states, turns) && i < |states|
    requires JoinReady(compiled, states[i], key) && node in Targets(compiled.predecessors, key.target)
    ensures var state, bucket := states[i], states[i].buckets[key];
            && Contributed(bucket, node) == Gathered(compiled, Sent(compiled, states, turns, i), key, node)
            && (forall id :: Feeds(compiled, state, key, node, id) && id !in state.routed ==>
                  AnnouncedNothing(bucket, node, id))
  {
    var state := states[i];
    EveryStateGathers(compiled, states, turns, i);
    EveryStateIsConserved(compiled, states, turns, i);
    hide Gathered, Sent, JoinReady, Reached, AllWithheld, Sum, Conserved;
    NotYetFired(compiled, state, key);
    assert CollectsWhatWasSent(compiled, state, Sent(compiled, states, turns, i), key, node);
    UnroutedAreAnnounced(compiled, state, key, node);
  }

  lemma NotYetFired(compiled: Compiled, state: RunState, key: JoinKey)
    requires Conserved(compiled, state) && JoinReady(compiled, state, key)
    ensures !Fired(state.joined, key) && key in state.buckets
  {
    hide QueueSound, SetsSound, ItersSound, RoutingSound, JoinsSound;
    ReadyIsNew(compiled, state, key);
  }

  lemma UnroutedAreAnnounced(compiled: Compiled, state: RunState, key: JoinKey, node: string)
    requires Conserved(compiled, state) && JoinReady(compiled, state, key)
    requires node in Targets(compiled.predecessors, key.target)
    ensures forall id :: Feeds(compiled, state, key, node, id) && id !in state.routed ==>
      AnnouncedNothing(state.buckets[key], node, id)
  {
    hide QueueSound, SetsSound, ItersSound, RoutingSound;
    EveryoneAnnounced(compiled, state, key, node);
    BucketIsSound(compiled, View(state), key, None);
    hide JoinsSound;
    var places, bucket := Places(state.activations), state.buckets[key];
    forall id | Feeds(compiled, state, key, node, id) && id !in state.routed
      ensures AnnouncedNothing(bucket, node, id)
    {
      assert id in Standing(places, FeedingCorrelation(compiled, key, node), node);
      assert HeardSound(compiled, places, state.routed, key, bucket, node, id);
    }
  }
}
