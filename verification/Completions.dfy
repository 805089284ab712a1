/** Completion numbers: each outcome of a run has one of its own, drawn from a counter that
    only grows (workflow/scheduler.go, workflow/settle.go). */
module Completions {
  import opened Options
  import opened Topology
  import opened RunState
  import opened Joins
  import opened Conservation
  import opened Scheduling
  import opened Settle
  import opened RoutingSafety
  import Codec
  import opened SchedulingRuns
  import opened JoinLaws
  import opened Results

  /** No outcome has a number beyond the counter, and no two have the same. */
  ghost predicate NumbersSound(state: RunState) {
    && (forall id, branch :: id in state.sourceSets && branch in state.sourceSets[id].outcomes ==>
          state.sourceSets[id].outcomes[branch].completion <= state.nextCompletion)
    && (forall id, branch, other, twin ::
          id in state.sourceSets && branch in state.sourceSets[id].outcomes
          && other in state.sourceSets && twin in state.sourceSets[other].outcomes
          && (id != other || branch != twin) ==>
            state.sourceSets[id].outcomes[branch].completion != state.sourceSets[other].outcomes[twin].completion)
  }

  /** The counter has not gone back, and no outcome was added or got another number. */
  ghost predicate KeepsNumbers(before: RunState, after: RunState) {
    && before.nextCompletion <= after.nextCompletion
    && (forall id, branch :: id in after.sourceSets && branch in after.sourceSets[id].outcomes ==>
          && id in before.sourceSets && branch in before.sourceSets[id].outcomes
          && after.sourceSets[id].outcomes[branch].completion == before.sourceSets[id].outcomes[branch].completion)
  }

  lemma KeepingIsSound(before: RunState, after: RunState)
    requires NumbersSound(before) && KeepsNumbers(before, after)
    ensures NumbersSound(after)
  {
  }

  lemma KeepingStaysUnused(before: RunState, after: RunState)
    requires KeepsNumbers(before, after)
    ensures forall completion :: Unused(before, completion) ==> Unused(after, completion)
  {
  }

  lemma StandingKeepsNumbers(before: RunState, after: RunState)
    requires OutcomesStand(before, after) && before.nextCompletion <= after.nextCompletion
    ensures KeepsNumbers(before, after)
  {
  }

  // ----- the counter -----

  lemma {:induction false} DeliveriesKeepCount(compiled: Compiled, state: RunState, source: Activation, output: string,
                                               deliveries: seq<Delivery>, id: Option<nat>, branchIndex: int, index: nat)
    requires index <= |deliveries|
    requires ScheduleDeliveries(compiled, state, source, output, deliveries, id, branchIndex, index).Ok?
    ensures ScheduleDeliveries(compiled, state, source, output, deliveries, id, branchIndex,
                               index).value.nextCompletion == state.nextCompletion
    decreases |deliveries| - index
  {
    if index < |deliveries| {
      var item := deliveries[index];
      var branches := if item.iter || item.target in compiled.joins then branchIndex else branchIndex + 1;
      DeliveryKeepsCount(compiled, state, source, output, item, id, branchIndex, index);
      hide ScheduleDelivery;
      var next := ScheduleDelivery(compiled, state, source, output, item, id, branchIndex, index).value;
      DeliveriesKeepCount(compiled, next, source, output, deliveries, id, branches, index + 1);
    }
  }

  lemma DeliveryKeepsCount(compiled: Compiled, state: RunState, source: Activation, output: string, item: Delivery,
                           id: Option<nat>, branchIndex: int, index: nat)
    requires ScheduleDelivery(compiled, state, source, output, item, id, branchIndex, index).Ok?
    ensures ScheduleDelivery(compiled, state, source, output, item, id, branchIndex,
                             index).value.nextCompletion == state.nextCompletion
  {
    hide TrackCorrelation, Bump, Targets, NextCorrelation;
  }

  lemma RoutingKeepsCount(compiled: Compiled, state: RunState, source: Activation, output: string, dispatch: Dispatch)
    requires Route(compiled, state, source, output, dispatch).Ok?
    ensures Route(compiled, state, source, output, dispatch).value.nextCompletion == state.nextCompletion
  {
    hide ScheduleDeliveries, CloseAll, Selected, Materialized, Iterated;
    var started := state.(routed := state.routed + [source.id]);
    if dispatch.stop {
      ClosingOnlyBuckets(compiled, started, source, Targets(compiled.edges, source.node),
        Selected(compiled, dispatch.deliveries));
    } else {
      var deliveries := if dispatch.explicit then dispatch.deliveries
                        else dispatch.deliveries + DefaultDeliveries(Targets(compiled.edges, source.node));
      var prepared := PrepareSourceSet(compiled, started, dispatch.(deliveries := deliveries)).value;
      DeliveriesKeepCount(compiled, prepared.0, source, output, deliveries, prepared.1, 0, 0);
      var scheduled := ScheduleDeliveries(compiled, prepared.0, source, output, deliveries, prepared.1, 0, 0).value;
      ClosingOnlyBuckets(compiled, scheduled, source, Targets(compiled.edges, source.node),
        Selected(compiled, deliveries));
    }
  }

  /** Of the operations that end no branch, only drawing numbers moves the counter. */
  lemma OthersKeepCount(compiled: Compiled, state: RunState, operation: Operation)
    requires Performed(compiled, state, operation) && !operation.CancelOne?
    ensures var after := Perform(compiled, state, operation).value;
            if operation.Numbered? then after.nextCompletion == operation.completion >= state.nextCompletion
            else after.nextCompletion == state.nextCompletion
  {
    hide Conserved, Route, CloseAll, Unused, UnselectedTold, FullyDealt, ClosedFor, JoinReady, Decide, Successes;
    hide CommitActivation, ReleaseBranch, Enqueue, Finish, RemoveReady, CommitBranch, MaterializeJoin, PullItem;
    hide RetryActivation, DecideSet, FailSet, FailIter;
    match operation
    case CommitStandalone(ran, dispatch) =>
      CommitKeepsCount(compiled, state, ran, dispatch);
    case CommitOne(ran) => BranchKeepsCount(state, ran);
    case FireJoin(key, input) => FiringKeepsCount(state, key, input);
    case Pulled(iter, value, cursor) => PullingKeepsCount(compiled, state, iter, value, cursor);
    case RetryOne(id, input) => RetryKeepsCount(state, id, input);
    case CloseOne(id, branch) =>
      var source := state.sourceSets[id].outcomes[branch].activation;
      ClosingOnlyBuckets(compiled, state, source, Targets(compiled.edges, source.node), map[]);
    case ReleaseOne(id, branch, dispatch) =>
      ReleaseKeepsCount(compiled, state, id, branch, dispatch);
    case FailedIter(iter, cause) =>
      FailingIterStands(compiled, state, iter, cause);
      FailingKeepsCount(state, iter, cause);
    case Decided(id, selected) => DecidingKeepsCount(state, id, selected);
    case FailedSet(id) => DecidingKeepsCount(state, id, []);
    case _ =>
  }

  lemma DecidingKeepsCount(state: RunState, id: nat, selected: seq<nat>)
    requires id in state.sourceSets
    ensures DecideSet(state, id, selected).nextCompletion == FailSet(state, id).nextCompletion == state.nextCompletion
  {
    hide ClosedFor;
  }

  lemma FailingKeepsCount(state: RunState, iter: nat, cause: Cause)
    requires iter in state.iterSources && state.iterSources[iter].sourceSet in state.sourceSets
    ensures FailIter(state, iter, cause).nextCompletion == state.nextCompletion
  {
    hide ClosedFor;
  }

  lemma BranchKeepsCount(state: RunState, ran: Ran)
    requires CommitBranch(state, ran).Ok?
    ensures CommitBranch(state, ran).value.nextCompletion == state.nextCompletion
  {
    hide Finish;
    FinishingKeepsSets(state, ran);
  }

  lemma FiringKeepsCount(state: RunState, key: JoinKey, input: string)
    ensures MaterializeJoin(state, key, input).nextCompletion == state.nextCompletion
  {
    hide TrackCorrelation, Bump;
  }

  lemma PullingKeepsCount(compiled: Compiled, state: RunState, iter: nat, value: string, cursor: Option<string>)
    requires PullItem(compiled, state, iter, value, cursor).Ok?
    ensures PullItem(compiled, state, iter, value, cursor).value.nextCompletion == state.nextCompletion
  {
    hide TrackCorrelation, Bump, NextCorrelation;
  }

  lemma RetryKeepsCount(state: RunState, id: nat, input: string)
    requires RetryActivation(state, id, input).Ok?
    ensures RetryActivation(state, id, input).value.nextCompletion == state.nextCompletion
  {
  }

  lemma CommitKeepsCount(compiled: Compiled, state: RunState, ran: Ran, dispatch: Dispatch)
    requires CommitActivation(compiled, state, ran, dispatch).Ok?
    ensures CommitActivation(compiled, state, ran, dispatch).value.nextCompletion == state.nextCompletion
  {
    hide Finish, Route, CloseAll;
    FinishingKeepsSets(state, ran);
    var finished := Finish(state, ran).value;
    if ran.result.skipped {
      ClosingOnlyBuckets(compiled, finished, ran.activation, Targets(compiled.edges, ran.activation.node), map[]);
    } else {
      RoutingKeepsCount(compiled, finished, ran.activation, ran.result.output, dispatch);
    }
  }

  lemma ReleaseKeepsCount(compiled: Compiled, state: RunState, id: nat, branch: nat, dispatch: Dispatch)
    requires id in state.sourceSets && branch in state.sourceSets[id].outcomes
    requires ReleaseBranch(compiled, state, id, branch, dispatch).Ok?
    ensures ReleaseBranch(compiled, state, id, branch, dispatch).value.nextCompletion == state.nextCompletion
  {
    hide Route;
    var outcome := state.sourceSets[id].outcomes[branch];
    if !outcome.committed {
      RoutingKeepsCount(compiled, state, outcome.activation, outcome.result.output, dispatch);
    }
  }

  // ----- the operations -----

  /** An operation that ends no branch gives no number to anything. */
  lemma OthersKeepNumbers(compiled: Compiled, state: RunState, operation: Operation)
    requires Wired(compiled) && Performed(compiled, state, operation) && !operation.CommitOne? && !operation.CancelOne?
    ensures KeepsNumbers(state, Perform(compiled, state, operation).value)
  {
    hide Conserved, KeepsNumbers, Stands, OutcomesStand, FullyDealt, UnselectedTold, CommitActivation, SettleSet;
    if operation.CommitStandalone? {
      StandaloneKeepsNumbers(compiled, state, operation.ran, operation.dispatch);
    } else if operation.Settled? {
      SettlingKeepsNumbers(state, operation.group);
    } else {
      hide Perform, Enabled;
      StandingKeep(compiled, state, operation);
    }
  }

  lemma StandaloneKeepsNumbers(compiled: Compiled, state: RunState, ran: Ran, dispatch: Dispatch)
    requires Wired(compiled) && Conserved(compiled, state) && Enabled(compiled, state, CommitStandalone(ran, dispatch))
    requires CommitActivation(compiled, state, ran, dispatch).Ok?
    ensures KeepsNumbers(state, CommitActivation(compiled, state, ran, dispatch).value)
  {
    hide Conserved, Enabled, CommitActivation, Finish, RecordsStand, NoneSettled, OutcomesStand, KeepsNumbers;
    var after := CommitActivation(compiled, state, ran, dispatch).value;
    CommitKeepsCount(compiled, state, ran, dispatch);
    StandaloneStands(compiled, state, ran, dispatch);
    SameSetsStand(state, Finish(state, ran).value, after);
    StandingKeepsNumbers(state, after);
  }

  lemma SettlingKeepsNumbers(state: RunState, id: nat)
    requires id in state.sourceSets
    ensures KeepsNumbers(state, SettleSet(state, id))
  {
  }

  lemma StandingKeep(compiled: Compiled, state: RunState, operation: Operation)
    requires Wired(compiled) && Performed(compiled, state, operation)
    requires !EndsOne(operation)
    ensures KeepsNumbers(state, Perform(compiled, state, operation).value)
  {
    hide Conserved, Perform, Enabled, RecordsStand, NoneSettled, OutcomesStand, KeepsNumbers;
    OthersKeepCount(compiled, state, operation);
    PerformStands(compiled, state, operation);
    StandingKeepsNumbers(state, Perform(compiled, state, operation).value);
  }

  lemma SameSetsStand(first: RunState, second: RunState, third: RunState)
    requires second.sourceSets == first.sourceSets && OutcomesStand(second, third)
    ensures OutcomesStand(first, third)
  {
  }

  /** The branch's outcome gets its number, and nothing else does. */
  lemma BranchNumbers(state: RunState, ran: Ran)
    requires NumbersSound(state) && Unused(state, ran.completion) && CommitBranch(state, ran).Ok?
    ensures NumbersSound(CommitBranch(state, ran).value)
  {
    hide Finish, BranchPhaseOf;
    FinishingKeepsSets(state, ran);
  }

  lemma BranchLeavesUnused(state: RunState, ran: Ran)
    requires CommitBranch(state, ran).Ok?
    ensures forall completion :: Unused(state, completion) && completion != ran.completion ==>
      Unused(CommitBranch(state, ran).value, completion)
  {
    hide Finish, BranchPhaseOf;
    FinishingKeepsSets(state, ran);
  }

  /** A canceled branch draws the next number. */
  lemma CancelNumbers(state: RunState, id: nat)
    requires NumbersSound(state) && id in state.sourceSets && CancelNext(state, id).Ok?
    ensures NumbersSound(CancelNext(state, id).value)
  {
    var index := NextUnselected(state.queue, id, state.sourceSets[id].selected);
    hide NextUnselected;
    if index < |state.queue| {
      hide NumbersSound;
      CancelAtNumbers(state, id, index);
    }
  }

  lemma CancelAtNumbers(state: RunState, id: nat, index: nat)
    requires NumbersSound(state) && id in state.sourceSets && index < |state.queue| && CancelAt(state, id, index).Ok?
    ensures NumbersSound(CancelAt(state, id, index).value)
  {
    hide Without, Bump;
  }

  lemma PerformNumbers(compiled: Compiled, state: RunState, operation: Operation)
    requires Wired(compiled) && Performed(compiled, state, operation) && NumbersSound(state)
    ensures NumbersSound(Perform(compiled, state, operation).value)
  {
    hide Conserved, NumbersSound, KeepsNumbers, CommitBranch, CancelNext;
    if operation.CommitOne? {
      BranchNumbers(state, operation.ran);
    } else if operation.CancelOne? {
      CancelNumbers(state, operation.group);
    } else {
      hide Perform, Enabled;
      OthersKeepNumbers(compiled, state, operation);
      KeepingIsSound(state, Perform(compiled, state, operation).value);
    }
  }

  // ----- over a whole run -----

  /** In every state of a run, its crashes and resumes included, each outcome has a number of
      its own, drawn before. */
  lemma {:induction false} EveryStateIsNumbered(compiled: Compiled, states: seq<RunState>, turns: seq<Turn>, i: nat)
    requires Wired(compiled) && Reached(compiled, states, turns) && i < |states|
    ensures NumbersSound(states[i])
    decreases i
  {
    hide NumbersSound, Conserved, Perform, Enabled, Resumption, Codec.Kept;
    if i == 0 {
      var runID, input :| states[0] == Initial(compiled, runID, input);
      InitialIsNumbered(compiled, runID, input);
    } else {
      assert Turned(compiled, states[..i], turns[i - 1], states[i]) && states[..i][i - 1] == states[i - 1];
      EveryStateIsConserved(compiled, states, turns, i - 1);
      match turns[i - 1]
      case Does(operation) =>
        EveryStateIsNumbered(compiled, states, turns, i - 1);
        if Performed(compiled, states[i - 1], operation) {
          PerformNumbers(compiled, states[i - 1], operation);
        }
      case Restarts(checkpoint, resolved) =>
        EveryStateIsNumbered(compiled, states, turns, checkpoint);
        EveryStateIsSound(compiled, states, turns, checkpoint);
        ResumptionNumbers(compiled, states[checkpoint], resolved);
    }
  }

  lemma InitialIsNumbered(compiled: Compiled, runID: string, input: string)
    ensures NumbersSound(Initial(compiled, runID, input))
  {
  }

  lemma ResumptionNumbers(compiled: Compiled, state: RunState, resolved: bool)
    requires Conserved(compiled, state) && Codec.Kept(state) && NumbersSound(state)
    ensures NumbersSound(Resumption(state, resolved))
  {
    Codec.RoundTrip(compiled, state);
    hide Conserved, Codec.Kept, Codec.Encode, Codec.Restore, NumbersSound;
    PlainKeepsNumbers(state);
    KeepingIsSound(state, Codec.Plain(state));
    SameSetsAreNumbered(Codec.Plain(state), Resumption(state, resolved));
  }

  lemma PlainKeepsNumbers(state: RunState)
    ensures KeepsNumbers(state, Codec.Plain(state))
  {
  }

  lemma SameSetsAreNumbered(before: RunState, after: RunState)
    requires NumbersSound(before) && after.sourceSets == before.sourceSets
    requires after.nextCompletion == before.nextCompletion
    ensures NumbersSound(after)
  {
  }

  // ----- a batch of results -----

  /** The results of a batch have numbers of their own. */
  ghost predicate AllUnused(state: RunState, results: seq<Ran>) {
    && (forall i :: 0 <= i < |results| ==> Unused(state, results[i].completion))
    && (forall i, j :: 0 <= i < j < |results| ==> results[i].completion != results[j].completion)
  }

  /** Numbers drawn beyond the counter are unused. */
  lemma DrawnAreUnused(state: RunState, count: nat, results: seq<Ran>)
    requires NumbersSound(state)
    requires forall i :: 0 <= i < |results| ==>
      state.nextCompletion < results[i].completion <= state.nextCompletion + count
    requires forall i, j :: 0 <= i < j < |results| ==> results[i].completion != results[j].completion
    ensures AllUnused(state.(nextCompletion := state.nextCompletion + count), results)
  {
  }

  /** Numbers other than this one stay unused. */
  ghost predicate OnlyUses(before: RunState, after: RunState, used: int) {
    forall completion :: Unused(before, completion) && completion != used ==> Unused(after, completion)
  }

  lemma RestAreUnused(before: RunState, after: RunState, results: seq<Ran>, index: nat)
    requires index < |results| && AllUnused(before, results[index..])
    requires OnlyUses(before, after, results[index].completion)
    ensures AllUnused(after, results[index + 1..])
  {
    hide Unused;
    var left, rest := results[index..], results[index + 1..];
    forall i | 0 <= i < |rest|
      ensures Unused(after, rest[i].completion)
    {
      assert rest[i] == left[i + 1] && left[0] == results[index];
    }
  }

  lemma SomeAreUnused(state: RunState, results: seq<Ran>, count: nat)
    requires AllUnused(state, results) && count <= |results|
    ensures AllUnused(state, results[..count])
  {
    hide Unused;
  }

  lemma SameSetsUse(before: RunState, after: RunState, results: seq<Ran>)
    requires AllUnused(before, results) && after.sourceSets == before.sourceSets
    requires after.nextCompletion == before.nextCompletion
    ensures AllUnused(after, results)
  {
  }

  lemma FirstIsUnused(state: RunState, results: seq<Ran>, index: nat)
    requires index < |results| && AllUnused(state, results[index..])
    ensures Unused(state, results[index].completion)
  {
    hide Unused;
    assert results[index..][0] == results[index];
  }

  lemma KeepingUsesNone(before: RunState, after: RunState, used: int)
    requires KeepsNumbers(before, after)
    ensures OnlyUses(before, after, used)
  {
    KeepingStaysUnused(before, after);
    hide Unused, KeepsNumbers;
  }

  lemma BranchUses(state: RunState, ran: Ran)
    ensures CommitBranch(state, ran).Ok? ==> OnlyUses(state, CommitBranch(state, ran).value, ran.completion)
  {
    hide Unused, CommitBranch;
    if CommitBranch(state, ran).Ok? {
      BranchLeavesUnused(state, ran);
    }
  }
}
