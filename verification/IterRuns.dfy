/** What an iterator route schedules over a whole run of the scheduler, its crashes and
    resumes included (workflow/iter_source.go). */
module IterRuns {
  import opened Options
  import opened Topology
  import opened RunState
  import opened Joins
  import opened Conservation
  import opened Scheduling
  import opened SchedulingLaws
  import opened RoutingSafety
  import Codec
  import opened SchedulingRuns
  import opened JoinLaws
  import opened Epochs
  import IterFeed

  /** How many items an iterator has yielded; none before there is one. */
  function PulledBy(state: RunState, iter: nat): nat {
    if iter in state.iterSources then state.iterSources[iter].pulled else 0
  }

  /** The item an operation schedules for an iterator. */
  function Pulls(operation: Operation, iter: nat): seq<string> {
    if operation.Pulled? && operation.iter == iter then [operation.value] else []
  }

  /** The items that were scheduled for an iterator, up to a state and in order; a resume
      goes on with those its checkpoint holds. */
  ghost function Scheduled(compiled: Compiled, states: seq<RunState>, turns: seq<Turn>, i: nat, iter: nat): seq<string>
    requires i < |states| == |turns| + 1
  {
    if i == 0 then []
    else
      match turns[i - 1]
      case Does(operation) =>
        Scheduled(compiled, states, turns, i - 1, iter)
        + (if Performed(compiled, states[i - 1], operation) then Pulls(operation, iter) else [])
      case Restarts(checkpoint, _) =>
        if checkpoint < i then Scheduled(compiled, states, turns, checkpoint, iter) else []
  }

  /** What a checkpoint keeps of an iterator, its cursor taken for the position restoring
      from it goes on from. */
  function FeedOf(source: IterSource, restores: string -> nat, scheduled: seq<string>): IterFeed.Feed {
    IterFeed.Feed(source.pulled, if source.cursor.Some? then Some(restores(source.cursor.value)) else None,
                  source.replay, source.open, scheduled)
  }

  /** Where the live iterator of an execution stands: at its beginning when it is opened, one
      further with each item pulled, and where binding leaves it after a resume. */
  ghost function Position(compiled: Compiled, states: seq<RunState>, turns: seq<Turn>, i: nat, iter: nat,
                          restores: string -> nat): nat
    requires i < |states| == |turns| + 1
  {
    if i == 0 then 0
    else
      match turns[i - 1]
      case Does(operation) =>
        Position(compiled, states, turns, i - 1, iter, restores)
        + (if Performed(compiled, states[i - 1], operation) then |Pulls(operation, iter)| else 0)
      case Restarts(_, _) =>
        if iter in states[i].iterSources then IterFeed.BoundAt(FeedOf(states[i].iterSources[iter], restores, [])) else 0
  }

  /** A turn pulls an item of this iterator. */
  ghost predicate PullsAt(compiled: Compiled, states: seq<RunState>, turns: seq<Turn>, i: nat, iter: nat)
    requires |states| == |turns| + 1
  {
    && i < |turns| && turns[i].Does? && turns[i].operation.Pulled? && turns[i].operation.iter == iter
    && iter in states[i].iterSources && Performed(compiled, states[i], turns[i].operation)
  }

  /** It has, and although the iterator can be restored no cursor was captured. */
  ghost predicate Dangles(compiled: Compiled, states: seq<RunState>, turns: seq<Turn>, i: nat, iter: nat)
    requires |states| == |turns| + 1
  {
    && 0 < i && PullsAt(compiled, states, turns, i - 1, iter)
    && turns[i - 1].operation.cursor.None? && states[i - 1].iterSources[iter].replay
  }

  /** The surroundings: a live iterator yields the item it stands at; a captured cursor
      restores to right behind that item, and only iterators that can be restored capture
      one; if one of them cannot capture it, it is failed before anything is saved. */
  ghost predicate Yields(compiled: Compiled, states: seq<RunState>, turns: seq<Turn>, iter: nat,
                         source: IterFeed.Source, restores: string -> nat)
    requires |states| == |turns| + 1
  {
    && (forall i :: PullsAt(compiled, states, turns, i, iter) ==>
          YieldsAt(compiled, states, turns, i, iter, source, restores))
    && (forall i, j :: 0 <= i < |states| && Dangles(compiled, states, turns, i, iter) && i <= j < |turns| ==>
          Abandons(turns[j], i, j, iter))
  }

  ghost predicate YieldsAt(compiled: Compiled, states: seq<RunState>, turns: seq<Turn>, i: nat, iter: nat,
                           source: IterFeed.Source, restores: string -> nat)
    requires i < |turns| && |states| == |turns| + 1 && turns[i].Does? && turns[i].operation.Pulled?
    requires iter in states[i].iterSources
  {
    var at, cursor := Position(compiled, states, turns, i, iter, restores), turns[i].operation.cursor;
    && source(at) == IterFeed.Value(turns[i].operation.value)
    && (cursor.Some? ==> states[i].iterSources[iter].replay && restores(cursor.value) == at + 1)
  }

  /** Right after the item the iterator is failed, and no run goes on from in between. */
  predicate Abandons(turn: Turn, dangling: nat, at: nat, iter: nat) {
    if turn.Restarts? then turn.checkpoint != dangling
    else at == dangling ==> turn.operation.FailedIter? && turn.operation.iter == iter
  }

  // ----- what moves an iterator -----

  /** An iterator has yielded nothing, or is new and has not yet. */
  predicate FeedStays(before: RunState, after: RunState, iter: nat) {
    if iter in before.iterSources
    then iter in after.iterSources && SameFeed(before.iterSources[iter], after.iterSources[iter])
    else iter in after.iterSources ==> after.iterSources[iter].pulled == 0 && after.iterSources[iter].cursor.None?
  }

  lemma SamePulled(before: RunState, after: RunState, iter: nat)
    requires Unmoved(before, after)
    ensures FeedStays(before, after, iter)
  {
  }

  ghost predicate NewIters(before: RunState, after: RunState) {
    && before.nextIterSeq <= after.nextIterSeq
    && (forall iter :: FeedStays(before, after, iter))
    && (forall iter :: iter in after.iterSources ==> iter in before.iterSources || iter >= before.nextIterSeq)
  }

  ghost predicate FreshIters(state: RunState) {
    state.nextIterSeq > 0 && forall iter :: iter in state.iterSources ==> iter < state.nextIterSeq
  }

  lemma DeliveryPulls(compiled: Compiled, state: RunState, source: Activation, output: string, item: Delivery,
                      sourceSet: Option<nat>, branchIndex: int, index: nat)
    requires FreshIters(state)
    requires ScheduleDelivery(compiled, state, source, output, item, sourceSet, branchIndex, index).Ok?
    ensures var after := ScheduleDelivery(compiled, state, source, output, item, sourceSet, branchIndex, index).value;
            NewIters(state, after) && FreshIters(after)
  {
    hide NextCorrelation, Targets;
    var correlation := NextCorrelation(compiled.backEdges, source.correlation, source.node, item.target);
    var after := ScheduleDelivery(compiled, state, source, output, item, sourceSet, branchIndex, index).value;
    hide FreshIters, NewIters;
    if item.iter {
      IterPulls(compiled, state, source, item, sourceSet.value, index);
    } else {
      EnqueuingKeepsIters(state, item.target, if UsesOutput(item) then output else item.payload.value, sourceSet,
                          branchIndex, correlation);
      hide Enqueue, ScheduleIter;
      SameItersAreNew(state, after);
    }
  }

  lemma IterPulls(compiled: Compiled, state: RunState, source: Activation, item: Delivery, sourceSet: nat, index: nat)
    requires FreshIters(state) && ScheduleIter(compiled, state, source, item, sourceSet, index).Ok?
    ensures var after := ScheduleIter(compiled, state, source, item, sourceSet, index).value;
            NewIters(state, after) && FreshIters(after)
  {
  }

  lemma SameItersAreNew(before: RunState, after: RunState)
    requires after.iterSources == before.iterSources && after.nextIterSeq == before.nextIterSeq && FreshIters(before)
    ensures NewIters(before, after) && FreshIters(after)
  {
  }

  lemma EnqueuingKeepsIters(state: RunState, target: string, input: string, sourceSet: Option<nat>, branchIndex: int,
                            correlation: CorrelationKey)
    ensures var after := Enqueue(state, target, input, sourceSet, branchIndex, correlation);
            after.iterSources == state.iterSources && after.nextIterSeq == state.nextIterSeq
  {
  }

  lemma NewItersAdd(before: RunState, between: RunState, after: RunState)
    requires NewIters(before, between) && NewIters(between, after)
    ensures NewIters(before, after)
  {
    forall iter: nat
      ensures FeedStays(before, after, iter)
    {
      assert FeedStays(before, between, iter) && FeedStays(between, after, iter);
    }
  }

  lemma {:induction false} DeliveriesPull(compiled: Compiled, state: RunState, source: Activation, output: string,
                                          deliveries: seq<Delivery>, sourceSet: Option<nat>, branchIndex: int,
                                          index: nat)
    requires FreshIters(state) && index <= |deliveries|
    requires ScheduleDeliveries(compiled, state, source, output, deliveries, sourceSet, branchIndex, index).Ok?
    ensures var after :=
      ScheduleDeliveries(compiled, state, source, output, deliveries, sourceSet, branchIndex, index).value;
            NewIters(state, after) && FreshIters(after)
    decreases |deliveries| - index
  {
    assert index == |deliveries| ==> NewIters(state, state);
    hide FreshIters, NewIters;
    if index < |deliveries| {
      var item := deliveries[index];
      var branches := if item.iter || item.target in compiled.joins then branchIndex else branchIndex + 1;
      var next := ScheduleDelivery(compiled, state, source, output, item, sourceSet, branchIndex, index).value;
      DeliveryPulls(compiled, state, source, output, item, sourceSet, branchIndex, index);
      hide ScheduleDelivery;
      DeliveriesPull(compiled, next, source, output, deliveries, sourceSet, branches, index + 1);
      NewItersAdd(state, next,
                  ScheduleDeliveries(compiled, state, source, output, deliveries, sourceSet, branchIndex, index).value);
    }
  }

  lemma RoutePulls(compiled: Compiled, state: RunState, source: Activation, output: string, dispatch: Dispatch,
                   iter: nat)
    requires FreshIters(state) && Route(compiled, state, source, output, dispatch).Ok?
    ensures FeedStays(state, Route(compiled, state, source, output, dispatch).value, iter)
  {
    hide Targets, ScheduleDeliveries, CloseAll, Selected, Materialized, Iterated, FeedStays, FreshIters, NewIters;
    var targets, deliveries := Targets(compiled.edges, source.node), DeliveriesOf(compiled, source.node, dispatch);
    var started := state.(routed := state.routed + [source.id]);
    var after := Route(compiled, state, source, output, dispatch).value;
    if dispatch.stop {
      ClosingOnlyBuckets(compiled, started, source, targets, Selected(compiled, dispatch.deliveries));
      SameItersPull(state, after, iter);
    } else {
      var prepared := PrepareSourceSet(compiled, started, dispatch.(deliveries := deliveries)).value;
      PreparingKeepsIters(compiled, started, dispatch.(deliveries := deliveries));
      hide PrepareSourceSet;
      SameItersPull(state, prepared.0, iter);
      DeliveriesPull(compiled, prepared.0, source, output, deliveries, prepared.1, 0, 0);
      var scheduled := ScheduleDeliveries(compiled, prepared.0, source, output, deliveries, prepared.1, 0, 0).value;
      NewItersPull(prepared.0, scheduled, iter);
      ClosingOnlyBuckets(compiled, scheduled, source, targets, Selected(compiled, deliveries));
      SameItersPull(scheduled, after, iter);
      FeedStaysOn(state, prepared.0, scheduled, after, iter);
    }
  }

  lemma FeedStaysOn(first: RunState, second: RunState, third: RunState, fourth: RunState, iter: nat)
    requires FeedStays(first, second, iter) && FeedStays(second, third, iter) && FeedStays(third, fourth, iter)
    ensures FeedStays(first, fourth, iter)
  {
  }

  lemma SameItersPull(before: RunState, after: RunState, iter: nat)
    requires after.iterSources == before.iterSources && after.nextIterSeq == before.nextIterSeq
    ensures FeedStays(before, after, iter) && (FreshIters(before) ==> FreshIters(after))
  {
  }

  lemma NewItersPull(before: RunState, after: RunState, iter: nat)
    requires NewIters(before, after)
    ensures FeedStays(before, after, iter)
  {
  }

  lemma PreparingKeepsIters(compiled: Compiled, state: RunState, dispatch: Dispatch)
    requires PrepareSourceSet(compiled, state, dispatch).Ok?
    ensures var prepared := PrepareSourceSet(compiled, state, dispatch).value.0;
            prepared.iterSources == state.iterSources && prepared.nextIterSeq == state.nextIterSeq
  {
    hide Materialized, Iterated;
  }

  lemma ItersAreFresh(compiled: Compiled, state: RunState)
    requires Conserved(compiled, state)
    ensures FreshIters(state)
  {
    PositiveIters(compiled, state);
    hide QueueSound, SetsSound, RoutingSound, JoinsSound;
  }

  lemma CommitPulls(compiled: Compiled, state: RunState, ran: Ran, dispatch: Dispatch, iter: nat)
    requires FreshIters(state) && CommitActivation(compiled, state, ran, dispatch).Ok?
    ensures FeedStays(state, CommitActivation(compiled, state, ran, dispatch).value, iter)
  {
    hide Route, CloseAll;
    var finished := Finish(state, ran).value;
    FinishKeepsIters(state, ran);
    hide Finish;
    if ran.result.skipped {
      ClosingOnlyBuckets(compiled, finished, ran.activation, Targets(compiled.edges, ran.activation.node), map[]);
    } else {
      RoutePulls(compiled, finished, ran.activation, ran.result.output, dispatch, iter);
    }
  }

  lemma FinishKeepsIters(state: RunState, ran: Ran)
    requires Finish(state, ran).Ok?
    ensures Finish(state, ran).value.iterSources == state.iterSources
    ensures Finish(state, ran).value.nextIterSeq == state.nextIterSeq
  {
  }

  lemma ReleasePulls(compiled: Compiled, state: RunState, id: nat, branch: nat, dispatch: Dispatch, iter: nat)
    requires FreshIters(state) && id in state.sourceSets && branch in state.sourceSets[id].outcomes
    requires ReleaseBranch(compiled, state, id, branch, dispatch).Ok?
    ensures FeedStays(state, ReleaseBranch(compiled, state, id, branch, dispatch).value, iter)
  {
    hide Route, FreshIters;
    var outcome := state.sourceSets[id].outcomes[branch];
    if !outcome.committed {
      RoutePulls(compiled, state, outcome.activation, outcome.result.output, dispatch, iter);
    }
  }

  lemma PullPulls(compiled: Compiled, state: RunState, pulling: nat, value: string, cursor: Option<string>, iter: nat)
    requires PullItem(compiled, state, pulling, value, cursor).Ok?
    ensures var after := PullItem(compiled, state, pulling, value, cursor).value;
            if iter == pulling then PulledOn(state, after, iter, cursor) else FeedStays(state, after, iter)
  {
    hide NextCorrelation;
  }

  /** It has yielded one more item; its cursor is the one captured behind that item, or the
      one it had if none was. */
  predicate PulledOn(before: RunState, after: RunState, iter: nat, cursor: Option<string>) {
    && iter in before.iterSources && iter in after.iterSources
    && var was, now := before.iterSources[iter], after.iterSources[iter];
       && now.pulled == was.pulled + 1 && now.replay == was.replay && now.open == was.open
       && (if cursor.Some? then now.cursor == cursor else now.cursor == was.cursor)
  }

  lemma FirePulls(state: RunState, key: JoinKey, input: string, iter: nat)
    ensures FeedStays(state, MaterializeJoin(state, key, input), iter)
  {
  }

  /** Only pulling moves an iterator, by the one item it schedules. */
  lemma PerformPulls(compiled: Compiled, state: RunState, operation: Operation, iter: nat)
    requires Performed(compiled, state, operation)
    ensures var after := Perform(compiled, state, operation).value;
            if operation.Pulled? && operation.iter == iter then PulledOn(state, after, iter, operation.cursor)
            else FeedStays(state, after, iter)
  {
    hide Conserved, CommitActivation, ReleaseBranch, MaterializeJoin, CloseAll, PullItem, FeedStays, PulledOn, Unmoved;
    ItersAreFresh(compiled, state);
    if AddsNone(operation) {
      hide Enabled, Perform;
      NoneAdded(compiled, state, operation);
      SamePulled(state, Perform(compiled, state, operation).value, iter);
    } else {
      hide FreshIters;
      match operation
      case CommitStandalone(ran, dispatch) => CommitPulls(compiled, state, ran, dispatch, iter);
      case FireJoin(key, input) => FirePulls(state, key, input, iter);
      case CloseOne(id, branch) =>
        var source := state.sourceSets[id].outcomes[branch].activation;
        ClosingKeepsPlaces(compiled, state, source);
        SamePulled(state, CloseJoinExpectations(compiled, state, source, map[]).value, iter);
      case ReleaseOne(id, branch, dispatch) => ReleasePulls(compiled, state, id, branch, dispatch, iter);
      case Pulled(pulling, value, cursor) => PullPulls(compiled, state, pulling, value, cursor, iter);
    }
  }

  // ----- over a whole run -----

  /** The items are the first ones of the source. */
  ghost predicate FirstItems(items: seq<string>, source: IterFeed.Source, count: nat) {
    (forall k :: 0 <= k < count ==> source(k).Value?) && items == IterFeed.Items(source, count)
  }

  /** What was scheduled is a prefix of the source; and unless an item's cursor could not be
      captured, the live iterator of an open one stands right behind it, and so does the
      cursor of one that can be restored. */
  ghost predicate FeedSound(state: RunState, iter: nat, source: IterFeed.Source, restores: string -> nat,
                            items: seq<string>, at: nat, dangles: bool) {
    && FirstItems(items, source, PulledBy(state, iter))
    && (iter !in state.iterSources ==> at == 0)
    && (dangles ==> iter in state.iterSources && state.iterSources[iter].open)
    && (iter in state.iterSources && state.iterSources[iter].open && !dangles ==>
          at == state.iterSources[iter].pulled
            && IterFeed.FirstItems(source, FeedOf(state.iterSources[iter], restores, items)))
  }

  lemma StillSound(before: RunState, after: RunState, iter: nat, source: IterFeed.Source, restores: string -> nat,
                   items: seq<string>, at: nat)
    requires FeedStays(before, after, iter) && FeedSound(before, iter, source, restores, items, at, false)
    ensures FeedSound(after, iter, source, restores, items, at, false)
  {
  }

  lemma PulledIsSound(before: RunState, after: RunState, iter: nat, source: IterFeed.Source, restores: string -> nat,
                      items: seq<string>, at: nat, value: string, cursor: Option<string>)
    requires PulledOn(before, after, iter, cursor) && before.iterSources[iter].open
    requires FeedSound(before, iter, source, restores, items, at, false) && source(at) == IterFeed.Value(value)
    requires cursor.Some? ==> before.iterSources[iter].replay && restores(cursor.value) == at + 1
    ensures FeedSound(after, iter, source, restores, items + [value], at + 1,
                      cursor.None? && before.iterSources[iter].replay)
  {
    assert items + [value] == IterFeed.Items(source, at + 1);
  }

  /** A failed iterator is closed, so that nothing more is asked of it. */
  lemma FailedIsSound(before: RunState, after: RunState, iter: nat, source: IterFeed.Source, restores: string -> nat,
                      items: seq<string>, at: nat, dangles: bool)
    requires FeedStays(before, after, iter) && FeedSound(before, iter, source, restores, items, at, dangles)
    requires iter in after.iterSources && !after.iterSources[iter].open && iter in before.iterSources
    ensures FeedSound(after, iter, source, restores, items, at, false)
  {
  }

  lemma ResumedIsSound(before: RunState, after: RunState, iter: nat, source: IterFeed.Source, restores: string -> nat,
                       items: seq<string>, at: nat)
    requires FeedStays(before, after, iter) && FeedSound(before, iter, source, restores, items, at, false)
    requires iter !in before.iterSources ==> iter !in after.iterSources
    ensures FeedSound(after, iter, source, restores, items,
                      if iter in after.iterSources then
                        IterFeed.BoundAt(FeedOf(after.iterSources[iter], restores, [])) else 0,
                      false)
  {
  }

  lemma FailingIsPerformed(compiled: Compiled, state: RunState, iter: nat, cause: Cause)
    requires Conserved(compiled, state) && iter in state.iterSources && state.iterSources[iter].open
    ensures Performed(compiled, state, FailedIter(iter, cause))
  {
    hide Conserved;
  }

  lemma FailingCloses(compiled: Compiled, state: RunState, iter: nat, cause: Cause)
    requires Performed(compiled, state, FailedIter(iter, cause))
    ensures iter in state.iterSources
    ensures var after := Perform(compiled, state, FailedIter(iter, cause)).value;
            iter in after.iterSources && !after.iterSources[iter].open
  {
    Codec.IterHasSet(compiled, state, iter);
    hide Conserved;
  }

  /** The state after a turn, if the state before was sound. */
  lemma TurnIsSound(compiled: Compiled, states: seq<RunState>, turns: seq<Turn>, i: nat, iter: nat,
                    source: IterFeed.Source, restores: string -> nat)
    requires 0 < i < |states| == |turns| + 1 && turns[i - 1].Does? && Conserved(compiled, states[i - 1])
    requires states[i] == SchedulingRuns.Next(compiled, states[i - 1], turns[i - 1].operation)
    requires Yields(compiled, states, turns, iter, source, restores)
    requires FeedSound(states[i - 1], iter, source, restores, Scheduled(compiled, states, turns, i - 1, iter),
                       Position(compiled, states, turns, i - 1, iter, restores),
                       Dangles(compiled, states, turns, i - 1, iter))
    ensures FeedSound(states[i], iter, source, restores, Scheduled(compiled, states, turns, i, iter),
                      Position(compiled, states, turns, i, iter, restores), Dangles(compiled, states, turns, i, iter))
  {
    hide Conserved, Perform, FeedSound, FeedStays, PulledOn, Position, Scheduled, YieldsAt;
    var before, after, operation := states[i - 1], states[i], turns[i - 1].operation;
    var items, at :=
      Scheduled(compiled, states, turns, i - 1, iter), Position(compiled, states, turns, i - 1, iter, restores);
    SchedulesOn(compiled, states, turns, i, iter, restores);
    if Dangles(compiled, states, turns, i - 1, iter) {
      DanglingIsOpen(before, iter, source, restores, items, at);
      assert Abandons(turns[i - 1], i - 1, i - 1, iter);
      FailingIsPerformed(compiled, before, iter, operation.cause);
      PerformPulls(compiled, before, operation, iter);
      FailingCloses(compiled, before, iter, operation.cause);
      FailedIsSound(before, after, iter, source, restores, items, at, true);
    } else if !Performed(compiled, before, operation) {
      assert after == before;
    } else {
      PerformPulls(compiled, before, operation, iter);
      if operation.Pulled? && operation.iter == iter {
        assert PullsAt(compiled, states, turns, i - 1, iter);
        YieldedThere(compiled, states, turns, i - 1, iter, source, restores);
        PulledIsSound(before, after, iter, source, restores, items, at, operation.value, operation.cursor);
      } else {
        StillSound(before, after, iter, source, restores, items, at);
      }
    }
  }

  lemma DanglingIsOpen(state: RunState, iter: nat, source: IterFeed.Source, restores: string -> nat, items: seq<string>,
                       at: nat)
    requires FeedSound(state, iter, source, restores, items, at, true)
    ensures iter in state.iterSources && state.iterSources[iter].open
  {
  }

  lemma SchedulesOn(compiled: Compiled, states: seq<RunState>, turns: seq<Turn>, i: nat, iter: nat,
                    restores: string -> nat)
    requires 0 < i < |states| == |turns| + 1 && turns[i - 1].Does?
    ensures var items := if Performed(compiled, states[i - 1], turns[i - 1].operation)
              then Pulls(turns[i - 1].operation, iter) else [];
            && Scheduled(compiled, states, turns, i, iter) == Scheduled(compiled, states, turns, i - 1, iter) + items
            && Position(compiled, states, turns, i, iter, restores)
                 == Position(compiled, states, turns, i - 1, iter, restores) + |items|
    ensures Scheduled(compiled, states, turns, i - 1, iter) + [] == Scheduled(compiled, states, turns, i - 1, iter)
  {
    hide Performed, Pulls;
  }

  lemma YieldedThere(compiled: Compiled, states: seq<RunState>, turns: seq<Turn>, i: nat, iter: nat,
                     source: IterFeed.Source, restores: string -> nat)
    requires |states| == |turns| + 1 && Yields(compiled, states, turns, iter, source, restores)
    requires PullsAt(compiled, states, turns, i, iter)
    ensures var operation, at := turns[i].operation, Position(compiled, states, turns, i, iter, restores);
            && source(at) == IterFeed.Value(operation.value)
            && (operation.cursor.Some? ==>
                  states[i].iterSources[iter].replay && restores(operation.cursor.value) == at + 1)
            && states[i].iterSources[iter].open
  {
    hide Position, Conserved, Perform;
  }

  /** Over all crashes and resumes, what is scheduled for an iterator that yields the same
      again, and whose cursors restore to where they were captured, is exactly the first
      items of its source, as many as the state says: none is skipped and none comes twice.
      That a live iterator goes on right behind them follows from how it is bound. */
  lemma {:induction false} IteratorSchedulesPrefix(compiled: Compiled, states: seq<RunState>, turns: seq<Turn>, i: nat,
                                                   iter: nat, source: IterFeed.Source, restores: string -> nat)
    requires Wired(compiled) && Reached(compiled, states, turns) && i < |states|
    requires Yields(compiled, states, turns, iter, source, restores)
    ensures FirstItems(Scheduled(compiled, states, turns, i, iter), source, PulledBy(states[i], iter))
    ensures FeedSound(states[i], iter, source, restores, Scheduled(compiled, states, turns, i, iter),
                      Position(compiled, states, turns, i, iter, restores), Dangles(compiled, states, turns, i, iter))
    decreases i
  {
    hide Tracked, Wired, Initial, Conserved, Perform, Enabled, Resumption, Codec.Kept, PulledBy, FirstItems, Pulls;
    hide FeedSound, PullsAt;
    if i == 0 {
      var runID, input :| states[0] == Initial(compiled, runID, input);
      NothingPulled(compiled, runID, input, iter, source, restores);
    } else {
      assert Turned(compiled, states[..i], turns[i - 1], states[i]) && states[..i][i - 1] == states[i - 1];
      match turns[i - 1]
      case Does(operation) =>
        IteratorSchedulesPrefix(compiled, states, turns, i - 1, iter, source, restores);
        EveryStateIsConserved(compiled, states, turns, i - 1);
        hide Reached, Yields;
        TurnIsSound(compiled, states, turns, i, iter, source, restores);
      case Restarts(checkpoint, resolved) =>
        IteratorSchedulesPrefix(compiled, states, turns, checkpoint, iter, source, restores);
        EveryStateIsSound(compiled, states, turns, checkpoint);
        ResumptionFeeds(compiled, states[checkpoint], resolved, iter);
        NothingDangles(compiled, states, turns, i, iter);
        ResumedIsSound(states[checkpoint], states[i], iter, source, restores,
                       Scheduled(compiled, states, turns, checkpoint, iter),
                       Position(compiled, states, turns, checkpoint, iter, restores));
    }
    PrefixOf(states[i], iter, source, restores, Scheduled(compiled, states, turns, i, iter),
             Position(compiled, states, turns, i, iter, restores), Dangles(compiled, states, turns, i, iter));
  }

  /** So the cursor of an open iterator that can be restored and has yielded something is
      there, and restores to right behind what was scheduled. */
  lemma CursorStands(compiled: Compiled, states: seq<RunState>, turns: seq<Turn>, i: nat, iter: nat,
                     source: IterFeed.Source, restores: string -> nat)
    requires Wired(compiled) && Reached(compiled, states, turns) && i < |states|
    requires Yields(compiled, states, turns, iter, source, restores) && !Dangles(compiled, states, turns, i, iter)
    requires iter in states[i].iterSources && states[i].iterSources[iter].open && states[i].iterSources[iter].replay
    ensures var pulled, cursor := states[i].iterSources[iter].pulled, states[i].iterSources[iter].cursor;
            && (pulled > 0 ==> cursor.Some?) && (cursor.Some? ==> restores(cursor.value) == pulled)
            && Position(compiled, states, turns, i, iter, restores) == pulled
  {
    IteratorSchedulesPrefix(compiled, states, turns, i, iter, source, restores);
    hide Reached, Yields, Dangles, Scheduled, Position;
  }

  lemma NothingDangles(compiled: Compiled, states: seq<RunState>, turns: seq<Turn>, i: nat, iter: nat)
    requires |states| == |turns| + 1 && 0 < i < |states| && turns[i - 1].Restarts?
    ensures !Dangles(compiled, states, turns, i, iter)
  {
  }

  lemma PrefixOf(state: RunState, iter: nat, source: IterFeed.Source, restores: string -> nat, items: seq<string>,
                 at: nat, dangles: bool)
    requires FeedSound(state, iter, source, restores, items, at, dangles)
    ensures FirstItems(items, source, PulledBy(state, iter))
  {
  }

  lemma ResumptionFeeds(compiled: Compiled, state: RunState, resolved: bool, iter: nat)
    requires Conserved(compiled, state) && Codec.Kept(state)
    ensures FeedStays(state, Resumption(state, resolved), iter)
    ensures iter !in state.iterSources ==> iter !in Resumption(state, resolved).iterSources
  {
    ResumptionKeepsPlaces(compiled, state, resolved);
    hide Conserved, Codec.Kept, Resumption;
  }

  lemma NothingPulled(compiled: Compiled, runID: string, input: string, iter: nat, source: IterFeed.Source,
                      restores: string -> nat)
    ensures FeedSound(Initial(compiled, runID, input), iter, source, restores, [], 0, false)
  {
  }

  /** Pulling schedules one activation of the iterator's target at the end of the queue, with
      the item as its input and the next branch number of its set. */
  lemma PullingSchedules(compiled: Compiled, state: RunState, iter: nat, value: string, cursor: Option<string>)
    requires PullItem(compiled, state, iter, value, cursor).Ok?
    ensures var after, source := PullItem(compiled, state, iter, value, cursor).value, state.iterSources[iter];
            var item, group := state.activations[source.sourceID].activation, state.sourceSets[source.sourceSet];
            && after.queue
                 == state.queue + [Activation(
                      state.nextActSeq, source.target, value, Some(source.sourceSet), group.expected,
                      NextCorrelation(compiled.backEdges, item.correlation, item.node, source.target))]
            && after.sourceSets[source.sourceSet].expected == group.expected + 1
            && after.sourceSets[source.sourceSet].branches == group.branches + [state.nextActSeq]
            && after.iterSources[iter].pulled == source.pulled + 1
            && after.iterSources[iter].cursor == (if cursor.Some? then cursor else source.cursor)
  {
    hide NextCorrelation;
  }

  /** Routing opens one iterator for each delivery of one: bound to its place in the
      dispatch, so that binding finds it again, and to the set the routing opens. */
  lemma RouteOpensIters(compiled: Compiled, state: RunState, source: Activation, output: string, dispatch: Dispatch,
                        at: nat)
    requires FreshIters(state) && Route(compiled, state, source, output, dispatch).Ok? && !dispatch.stop
    requires var deliveries := DeliveriesOf(compiled, source.node, dispatch); at < |deliveries| && deliveries[at].iter
    ensures var after, deliveries :=
              Route(compiled, state, source, output, dispatch).value, DeliveriesOf(compiled, source.node, dispatch);
            var iter := state.nextIterSeq + Iterated(deliveries[..at]);
            && iter in after.iterSources
            && after.iterSources[iter]
                 == IterSource(iter, source.id, deliveries[at].target, state.nextSetSeq, at, 0, None,
                               deliveries[at].replay, true, None)
  {
    hide ScheduleDeliveries, CloseAll, Selected, Materialized;
    var targets, deliveries := Targets(compiled.edges, source.node), DeliveriesOf(compiled, source.node, dispatch);
    var started := state.(routed := state.routed + [source.id]);
    IteratedThere(deliveries, at);
    PreparingKeepsIters(compiled, started, dispatch.(deliveries := deliveries));
    var prepared := PrepareSourceSet(compiled, started, dispatch.(deliveries := deliveries)).value;
    hide Iterated;
    assert deliveries[0..] == deliveries;
    DeliveriesOpenIters(compiled, prepared.0, source, output, deliveries, prepared.1, 0, 0, at);
    var scheduled := ScheduleDeliveries(compiled, prepared.0, source, output, deliveries, prepared.1, 0, 0).value;
    ClosingOnlyBuckets(compiled, scheduled, source, targets, Selected(compiled, deliveries));
  }

  lemma {:induction false} IteratedThere(deliveries: seq<Delivery>, at: nat)
    requires at < |deliveries| && deliveries[at].iter
    ensures Iterated(deliveries) > 0
  {
    if at > 0 {
      IteratedThere(deliveries[1..], at - 1);
    }
  }

  lemma {:induction false} DeliveriesOpenIters(compiled: Compiled, state: RunState, source: Activation, output: string,
                                               deliveries: seq<Delivery>, sourceSet: Option<nat>, branchIndex: int,
                                               index: nat, at: nat)
    requires FreshIters(state) && index <= at < |deliveries| && deliveries[at].iter && sourceSet.Some?
    requires ScheduleDeliveries(compiled, state, source, output, deliveries, sourceSet, branchIndex, index).Ok?
    ensures var after :=
              ScheduleDeliveries(compiled, state, source, output, deliveries, sourceSet, branchIndex, index).value;
            var iter := state.nextIterSeq + Iterated(deliveries[index..at]);
            && iter in after.iterSources
            && after.iterSources[iter] == Opened(iter, source, deliveries[at], sourceSet.value, at)
    decreases |deliveries| - index
  {
    hide FreshIters, Opened;
    var item := deliveries[index];
    var branches := if item.iter || item.target in compiled.joins then branchIndex else branchIndex + 1;
    var next := ScheduleDelivery(compiled, state, source, output, item, sourceSet, branchIndex, index).value;
    DeliveryPulls(compiled, state, source, output, item, sourceSet, branchIndex, index);
    DeliveryOpens(compiled, state, source, output, item, sourceSet, branchIndex, index);
    hide ScheduleDelivery, Iterated;
    if index == at {
      DeliveriesPull(compiled, next, source, output, deliveries, sourceSet, branches, index + 1);
      DeliveriesLeaveIters(compiled, next, source, output, deliveries, sourceSet, branches, index + 1,
        state.nextIterSeq);
      NothingIterated(deliveries, index);
    } else {
      DeliveriesOpenIters(compiled, next, source, output, deliveries, sourceSet, branches, index + 1, at);
      IteratedStep(deliveries, index, at);
    }
  }

  function Opened(iter: nat, source: Activation, item: Delivery, sourceSet: nat, at: nat): IterSource {
    IterSource(iter, source.id, item.target, sourceSet, at, 0, None, item.replay, true, None)
  }

  lemma DeliveryOpens(compiled: Compiled, state: RunState, source: Activation, output: string, item: Delivery,
                      sourceSet: Option<nat>, branchIndex: int, index: nat)
    requires FreshIters(state) && sourceSet.Some?
    requires ScheduleDelivery(compiled, state, source, output, item, sourceSet, branchIndex, index).Ok?
    ensures var after, iter :=
              ScheduleDelivery(compiled, state, source, output, item, sourceSet, branchIndex, index).value,
              state.nextIterSeq;
            && after.nextIterSeq == (if item.iter then iter + 1 else iter)
            && (item.iter ==>
                  iter in after.iterSources
                  && after.iterSources[iter] == Opened(iter, source, item, sourceSet.value, index))
            && (forall other :: other in state.iterSources ==>
                  other in after.iterSources && after.iterSources[other] == state.iterSources[other])
  {
    hide NextCorrelation, Targets;
  }

  lemma {:induction false} DeliveriesLeaveIters(compiled: Compiled, state: RunState, source: Activation, output: string,
                                                deliveries: seq<Delivery>, sourceSet: Option<nat>, branchIndex: int,
                                                index: nat, iter: nat)
    requires FreshIters(state) && index <= |deliveries| && sourceSet.Some? && iter in state.iterSources
    requires ScheduleDeliveries(compiled, state, source, output, deliveries, sourceSet, branchIndex, index).Ok?
    ensures var after :=
              ScheduleDeliveries(compiled, state, source, output, deliveries, sourceSet, branchIndex, index).value;
            iter in after.iterSources && after.iterSources[iter] == state.iterSources[iter]
    decreases |deliveries| - index
  {
    hide FreshIters;
    if index < |deliveries| {
      var item := deliveries[index];
      var branches := if item.iter || item.target in compiled.joins then branchIndex else branchIndex + 1;
      var next := ScheduleDelivery(compiled, state, source, output, item, sourceSet, branchIndex, index).value;
      DeliveryPulls(compiled, state, source, output, item, sourceSet, branchIndex, index);
      DeliveryOpens(compiled, state, source, output, item, sourceSet, branchIndex, index);
      hide ScheduleDelivery, Opened;
      DeliveriesLeaveIters(compiled, next, source, output, deliveries, sourceSet, branches, index + 1, iter);
    }
  }

  lemma NothingIterated(deliveries: seq<Delivery>, index: nat)
    requires index <= |deliveries|
    ensures Iterated(deliveries[index..index]) == 0
  {
  }

  lemma IteratedStep(deliveries: seq<Delivery>, index: nat, at: nat)
    requires index < at <= |deliveries|
    ensures Iterated(deliveries[index..at])
         == (if deliveries[index].iter then 1 else 0) + Iterated(deliveries[index + 1..at])
  {
    assert deliveries[index..at][1..] == deliveries[index + 1..at];
  }
}
