/** What committing, reordering, releasing and pulling do to the ready queue, one
    operation at a time (workflow/scheduler.go, settle.go, iter_source.go). */
module BatchFacts {
  import opened Options
  import opened Topology
  import opened RunState
  import opened Joins
  import opened Settle
  import opened Conservation
  import opened Scheduling
  import opened SchedulingSafety
  import opened RoutingSafety
  import opened SchedulingLaws
  import opened OpenSets
  import opened Announcements
  import opened Release
  import opened JoinWaits

  // ----- what the queue keeps -----

  /** Queue and records after some operation: old items stay in front and in order,
      old records stay, but for one activation. */
  ghost predicate Appends(before: RunState, after: RunState, queue: seq<Activation>, busy: Option<nat>) {
    && queue <= after.queue
    && (forall id :: id in before.activations && busy != Some(id) ==>
          id in after.activations && after.activations[id] == before.activations[id])
    && (forall id :: id in after.activations && id !in before.activations ==> after.activations[id].phase == Ready)
  }

  // ----- firing joins -----

  datatype Firing = Firing(key: JoinKey, input: string)

  /** The state after these joins fired, one after the other. */
  ghost function FireAll(state: RunState, fired: seq<Firing>): RunState {
    if fired == [] then state
    else
      var last := |fired| - 1;
      MaterializeJoin(FireAll(state, fired[..last]), fired[last].key, fired[last].input)
  }

  /** Each of them was ready when it fired. */
  ghost predicate AllReady(compiled: Compiled, state: RunState, fired: seq<Firing>) {
    forall i :: 0 <= i < |fired| ==> JoinReady(compiled, FireAll(state, fired[..i]), fired[i].key)
  }

  lemma NothingFired(compiled: Compiled, state: RunState)
    ensures FireAll(state, []) == state && AllReady(compiled, state, []) && StillTold(compiled, state, state)
  {
    SameToldAs(compiled, state, state);
  }

  lemma FireOneMore(compiled: Compiled, state: RunState, fired: seq<Firing>, next: Firing)
    requires AllReady(compiled, state, fired) && JoinReady(compiled, FireAll(state, fired), next.key)
    ensures FireAll(state, fired + [next]) == MaterializeJoin(FireAll(state, fired), next.key, next.input)
    ensures AllReady(compiled, state, fired + [next])
  {
    hide JoinReady, MaterializeJoin;
    var more := fired + [next];
    assert more[..|fired|] == fired;
    forall i | 0 <= i < |more|
      ensures JoinReady(compiled, FireAll(state, more[..i]), more[i].key)
    {
      if i < |fired| {
        assert more[..i] == fired[..i];
      }
    }
  }

  lemma CommitsAs(compiled: Compiled, state: RunState, ran: Ran, dispatch: Dispatch)
    ensures ran.cause.None? && ran.retry.Some? && RetryActivation(state, ran.activation.id, ran.retry.value).Ok? ==>
              CommitsTo(compiled, state, ran, dispatch, [],
                RetryActivation(state, ran.activation.id, ran.retry.value).value)
    ensures !(ran.cause.None? && ran.retry.Some?) && ran.activation.sourceSet.Some? && CommitBranch(state, ran).Ok? ==>
              CommitsTo(compiled, state, ran, dispatch, [], CommitBranch(state, ran).value)
  {
    hide RetryActivation, CommitBranch, CommitActivation;
  }

  // ----- starting a batch -----

  /** The state after these activations were started, one after the other. */
  function StartAll(state: RunState, batch: seq<Activation>): RunState {
    if batch == [] then state
    else
      var before := StartAll(state, batch[..|batch| - 1]);
      var started := StartActivation(before, batch[|batch| - 1].id);
      if started.Ok? then started.value else before
  }

  lemma StartKeepsKeys(state: RunState, id: nat)
    requires StartActivation(state, id).Ok?
    ensures StartActivation(state, id).value.activations.Keys == state.activations.Keys
    ensures StartActivation(state, id).value.sourceSets == state.sourceSets
  {
  }

  lemma StartOneMore(state: RunState, batch: seq<Activation>, index: nat)
    requires index < |batch| && StartActivation(StartAll(state, batch[..index]), batch[index].id).Ok?
    ensures StartAll(state, batch[..index + 1])
      == StartActivation(StartAll(state, batch[..index]), batch[index].id).value
  {
    assert batch[..index + 1][..index] == batch[..index];
  }

  function Indexes(count: nat): (indexes: set<nat>)
    ensures |indexes| == count && forall i: nat :: i in indexes <==> i < count
  {
    if count == 0 then {} else Indexes(count - 1) + {count - 1}
  }

  // ----- one committed item -----

  /** What committing an item makes of the state, short of its event. */
  ghost predicate CommitsTo(compiled: Compiled, before: RunState, ran: Ran, dispatch: Dispatch, fired: seq<Firing>,
                            after: RunState) {
    if ran.cause.None? && ran.retry.Some? then RetryActivation(before, ran.activation.id, ran.retry.value) == Ok(after)
    else if ran.activation.sourceSet.Some? then CommitBranch(before, ran) == Ok(after)
    else
      match CommitActivation(compiled, before, ran, dispatch)
      case Err(_) => after == before
      case Ok(routed) => after == FireAll(routed, fired) && AllReady(compiled, routed, fired)
  }

  /** The head of the queue has been dealt with; the rest is as it was. */
  ghost predicate Dealt(before: RunState, after: RunState) {
    before.queue != [] && Appends(before, after, before.queue[1..], Some(before.queue[0].id))
  }

  lemma StandaloneDeals(compiled: Compiled, state: RunState, ran: Ran, dispatch: Dispatch)
    requires Wired(compiled) && Conserved(compiled, state) && Enabled(compiled, state, CommitStandalone(ran, dispatch))
    requires CommitActivation(compiled, state, ran, dispatch).Ok?
    ensures Dealt(state, CommitActivation(compiled, state, ran, dispatch).value)
  {
    hide View, QueueSound, SetsSound, ItersSound, RoutingSound, JoinsSound, Finish, Route, CloseAll;
    var finished, after := Finish(state, ran).value, CommitActivation(compiled, state, ran, dispatch).value;
    FinishedIsAlone(state, ran);
    FinishingKeeps(compiled, state, ran, finished);
    FinishedPlace(state, ran, finished);
    if ran.result.skipped {
      ClosingOnlyBuckets(compiled, finished, ran.activation, Targets(compiled.edges, ran.activation.node), map[]);
    } else {
      ConservedBuilds(compiled, finished);
      PositiveIters(compiled, finished);
      RouteBuilds(compiled, finished, ran.activation, ran.result.output, dispatch);
      RouteAppends(compiled, finished, ran.activation, ran.result.output, dispatch);
    }
  }

  lemma BranchDeals(compiled: Compiled, state: RunState, ran: Ran)
    requires Conserved(compiled, state) && BranchAtHead(state, ran) && CommitBranch(state, ran).Ok?
    ensures Dealt(state, CommitBranch(state, ran).value)
  {
    hide Places, QueueCount, CorrelationsCount, Releasing, BucketSound, RoutingSound;
    QueuedIsPending(state, 0);
    hide Conserved, CommitBranch;
    CommittedGetsOutcome(state, ran);
    assert Without(state.queue, 0) == state.queue[1..];
  }

  lemma RetryDeals(compiled: Compiled, state: RunState, id: nat, input: string)
    requires Conserved(compiled, state) && RetryActivation(state, id, input).Ok?
    ensures Dealt(state, RetryActivation(state, id, input).value) && state.queue[0].id == id
    ensures RetryActivation(state, id, input).value.activations[id].phase == Ready
  {
    RetriedIsRequeued(state, id, input);
  }

  lemma FireAppends(compiled: Compiled, state: RunState, key: JoinKey, input: string)
    requires QueueSound(state)
    ensures Appends(state, MaterializeJoin(state, key, input), state.queue, None)
  {
  }

  lemma AppendsOn(first: RunState, second: RunState, third: RunState)
    requires Dealt(first, second) && Appends(second, third, second.queue, None)
    ensures Dealt(first, third)
  {
    assert first.queue[1..] <= second.queue <= third.queue;
  }

  /** The batch items still to be committed are in front and running; all others are ready. */
  ghost predicate InBatch(state: RunState, rest: seq<Activation>) {
    rest <= state.queue && forall i :: 0 <= i < |state.queue| ==> StandsInBatch(state, |rest|, i)
  }

  ghost predicate StandsInBatch(state: RunState, count: nat, index: nat)
    requires index < |state.queue|
  {
    && state.queue[index].id in state.activations
    && state.activations[state.queue[index].id].phase == if index < count then Running else Ready
  }

  /** An activation has ended as it ran: retried, it is ready again. */
  ghost predicate Ended(state: RunState, ran: Ran) {
    && ran.activation.id in state.activations
    && var record := state.activations[ran.activation.id];
       && record.activation.sourceSet == ran.activation.sourceSet
       && record.phase == if ran.cause.None? && ran.retry.Some? then Ready else CompletedPhase(ran.result, ran.cause)
  }

  /** Dealing with the first item of a batch leaves the others to be dealt with. */
  lemma BatchShrinks(compiled: Compiled, before: RunState, ran: Ran, after: RunState, rest: seq<Activation>)
    requires Conserved(compiled, before) && Conserved(compiled, after) && Dealt(before, after)
    requires rest != [] && InBatch(before, rest) && ran.activation == before.queue[0] && Ended(after, ran)
    ensures InBatch(after, rest[1..])
  {
    assert rest[1..] <= before.queue[1..] <= after.queue;
    forall i | 0 <= i < |after.queue|
      ensures StandsInBatch(after, |rest[1..]|, i)
    {
      if i < |before.queue| - 1 {
        EarlierItemStands(compiled, before, after, rest, i);
      } else {
        LaterItemIsReady(compiled, before, ran, after, i);
      }
    }
  }

  lemma EarlierItemStands(compiled: Compiled, before: RunState, after: RunState, rest: seq<Activation>, i: nat)
    requires Conserved(compiled, before) && Dealt(before, after) && rest != [] && InBatch(before, rest)
    requires i < |before.queue| - 1
    ensures StandsInBatch(after, |rest| - 1, i)
  {
    hide SetsSound, ItersSound, RoutingSound, JoinsSound;
    assert after.queue[i] == before.queue[1..][i] == before.queue[i + 1];
    assert StandsInBatch(before, |rest|, i + 1);
    assert before.queue[i + 1].id != before.queue[0].id;
  }

  lemma LaterItemIsReady(compiled: Compiled, before: RunState, ran: Ran, after: RunState, i: nat)
    requires Conserved(compiled, before) && Conserved(compiled, after) && Dealt(before, after)
    requires ran.activation == before.queue[0] && Ended(after, ran)
    requires |before.queue| - 1 <= i < |after.queue|
    ensures after.queue[i].id in after.activations && after.activations[after.queue[i].id].phase == Ready
  {
    hide SetsSound, ItersSound, RoutingSound, JoinsSound;
    QueuedIsPending(after, i);
    var id := after.queue[i].id;
    assert forall k :: 0 <= k < |before.queue| - 1 ==> after.queue[k] == before.queue[1..][k];
    if id in before.activations && id != before.queue[0].id {
      assert Pending(before.activations[id].phase);
      assert id in QueueIDs(before.queue);
      var at :| 0 <= at < |before.queue| && before.queue[at].id == id;
    }
  }

  /** Firing joins is none of the sets', iterators' or routing's business. */
  ghost predicate JoinsOnlyAdd(before: RunState, after: RunState) {
    after.sourceSets == before.sourceSets && after.iterSources == before.iterSources && after.routed == before.routed
  }

  lemma FiredAppends(compiled: Compiled, first: RunState, state: RunState, key: JoinKey, input: string)
    requires Conserved(compiled, state) && Appends(first, state, first.queue, None) && key in state.buckets
    ensures var after := MaterializeJoin(state, key, input);
            && Appends(first, after, first.queue, None) && JoinsOnlyAdd(state, after)
            && |after.buckets| < |state.buckets|
            && StillTold(compiled, state, after)
  {
    FiringStillTold(compiled, state, key, input);
    hide StillTold, QueueSound, SetsSound, ItersSound, RoutingSound, JoinsSound, View;
    FireAppends(compiled, state, key, input);
    assert (state.buckets - {key}).Keys == state.buckets.Keys - {key};
    FiringOnlyAdds(state, key, input);
    hide MaterializeJoin;
  }

  lemma FiringOnlyAdds(state: RunState, key: JoinKey, input: string)
    ensures JoinsOnlyAdd(state, MaterializeJoin(state, key, input))
    ensures MaterializeJoin(state, key, input).buckets == state.buckets - {key}
  {
  }

  function Items(results: seq<Ran>): seq<Activation> {
    seq(|results|, i requires 0 <= i < |results| => results[i].activation)
  }

  /** A failed item of no set fails the run. */
  predicate FailsRun(ran: Ran) {
    ran.cause.Some? && ran.activation.sourceSet.None?
  }

  lemma ItemsSplit(results: seq<Ran>, at: nat)
    requires at <= |results|
    ensures Items(results) == Items(results[..at]) + Items(results[at..])
  {
  }

  /** The result is one of the running activation at the head of the queue. */
  ghost predicate Committable(state: RunState, ran: Ran) {
    && state.queue != [] && ran.activation == state.queue[0]
    && ran.activation.id in state.activations && state.activations[ran.activation.id].phase == Running
    && (ran.cause.Some? ==> ran.activation.sourceSet.Some?)
  }

  lemma CommittableCause(state: RunState, ran: Ran)
    requires Committable(state, ran)
    ensures ran.cause.Some? ==> ran.activation.sourceSet.Some?
  {
  }

  lemma CommittableIsFirst(state: RunState, ran: Ran)
    requires Committable(state, ran)
    ensures state.queue != [] && state.queue[0] == ran.activation
  {
  }

  lemma FirstOfBatch(compiled: Compiled, state: RunState, results: seq<Ran>, held: seq<Activation>)
    requires results != [] && InBatch(state, Items(results) + held)
    requires results[0].cause.Some? ==> results[0].activation.sourceSet.Some?
    ensures Committable(state, results[0])
  {
    assert (Items(results) + held)[0] == results[0].activation;
    assert StandsInBatch(state, |Items(results) + held|, 0);
  }

  lemma RetryWorks(compiled: Compiled, state: RunState, ran: Ran, input: string)
    requires Conserved(compiled, state) && Committable(state, ran)
    requires ran.cause.None? && ran.retry == Some(input)
    ensures RetryActivation(state, ran.activation.id, input).Ok?
    ensures var after := RetryActivation(state, ran.activation.id, input).value;
            Conserved(compiled, after) && Dealt(state, after) && Ended(after, ran)
  {
    RetryConserves(compiled, state, ran.activation.id, input);
    RetryDeals(compiled, state, ran.activation.id, input);
  }

  lemma BranchWorks(compiled: Compiled, state: RunState, ran: Ran)
    requires Conserved(compiled, state) && Committable(state, ran) && ran.activation.sourceSet.Some?
    requires !(ran.cause.None? && ran.retry.Some?)
    ensures CommitBranch(state, ran).Ok?
    ensures var after := CommitBranch(state, ran).value;
            Conserved(compiled, after) && Dealt(state, after) && Ended(after, ran)
  {
    BranchIsKnown(compiled, state, ran);
    hide Conserved, CommitBranch;
    CommitOneConserves(compiled, state, ran);
    BranchDeals(compiled, state, ran);
    QueuedTracked(compiled, state);
    CommittedGetsOutcome(state, ran);
    BranchEnds(state, ran);
  }

  lemma BranchEnds(state: RunState, ran: Ran)
    requires TrackedAs(state.activations, ran.activation) && CommitBranch(state, ran).Ok?
    requires !(ran.cause.None? && ran.retry.Some?)
    ensures Ended(CommitBranch(state, ran).value, ran)
  {
  }

  lemma QueuedTracked(compiled: Compiled, state: RunState)
    requires Conserved(compiled, state) && state.queue != []
    ensures TrackedAs(state.activations, state.queue[0])
  {
    QueuedIsPending(state, 0);
  }

  lemma BranchIsKnown(compiled: Compiled, state: RunState, ran: Ran)
    requires Conserved(compiled, state) && Committable(state, ran) && ran.activation.sourceSet.Some?
    ensures CommitBranch(state, ran).Ok?
  {
    QueuedIsPending(state, 0);
  }

  lemma StandaloneWorks(compiled: Compiled, state: RunState, ran: Ran, dispatch: Dispatch)
    requires Wired(compiled) && Conserved(compiled, state) && Committable(state, ran) && ran.activation.sourceSet.None?
    requires ran.cause.None?
    requires ran.retry.None? && CommitActivation(compiled, state, ran, dispatch).Ok?
    ensures var after := CommitActivation(compiled, state, ran, dispatch).value;
            Conserved(compiled, after) && Dealt(state, after) && Ended(after, ran)
  {
    hide Conserved, CommitActivation;
    SchedulingLaws.StandaloneConserves(compiled, state, ran, dispatch);
    StandaloneDeals(compiled, state, ran, dispatch);
    StandaloneIsDone(compiled, state, ran, dispatch);
  }

  lemma StandaloneIsDone(compiled: Compiled, state: RunState, ran: Ran, dispatch: Dispatch)
    requires Wired(compiled) && Conserved(compiled, state) && Committable(state, ran) && ran.activation.sourceSet.None?
    requires ran.cause.None?
    requires ran.retry.None? && CommitActivation(compiled, state, ran, dispatch).Ok?
    ensures Ended(CommitActivation(compiled, state, ran, dispatch).value, ran)
  {
    hide QueueSound, SetsSound, ItersSound, RoutingSound, JoinsSound, Finish, Route, CloseAll;
    var finished := Finish(state, ran).value;
    FinishedIsAlone(state, ran);
    FinishingKeeps(compiled, state, ran, finished);
    FinishedPlace(state, ran, finished);
    if ran.result.skipped {
      ClosingOnlyBuckets(compiled, finished, ran.activation, Targets(compiled.edges, ran.activation.node), map[]);
    } else {
      ConservedBuilds(compiled, finished);
      PositiveIters(compiled, finished);
      RouteBuilds(compiled, finished, ran.activation, ran.result.output, dispatch);
    }
  }

  lemma StaysEnded(routed: RunState, after: RunState, ran: Ran)
    requires Ended(routed, ran) && Appends(routed, after, routed.queue, None)
    ensures Ended(after, ran)
  {
  }

  /** What ended stays so while others are dealt with. */
  lemma EndedBefore(before: RunState, after: RunState, ran: Ran)
    requires Ended(before, ran) && Dealt(before, after) && ran.activation.id != before.queue[0].id
    ensures Ended(after, ran)
  {
  }

  lemma EndedInSet(compiled: Compiled, state: RunState, ran: Ran)
    requires Conserved(compiled, state) && Ended(state, ran) && ran.activation.sourceSet.Some?
    ensures ran.activation.sourceSet.value in state.sourceSets
  {
  }

  lemma SetsAreThere(compiled: Compiled, state: RunState, results: seq<Ran>, ids: seq<nat>)
    requires Conserved(compiled, state) && forall i :: 0 <= i < |results| ==> Ended(state, results[i])
    requires forall id :: id in ids <==> exists i :: 0 <= i < |results| && results[i].activation.sourceSet == Some(id)
    ensures forall id :: id in ids ==> id in state.sourceSets
  {
    forall i | 0 <= i < |results| && results[i].activation.sourceSet.Some?
      ensures results[i].activation.sourceSet.value in state.sourceSets
    {
      EndedInSet(compiled, state, results[i]);
    }
  }

  /** What ended is not running again once sets are settled. */
  lemma EndedStayDone(before: RunState, after: RunState, results: seq<Ran>)
    requires Settles(before, after) && forall i :: 0 <= i < |results| ==> Ended(before, results[i])
    ensures forall i :: 0 <= i < |results| ==>
              results[i].activation.id in after.activations
                && IdleOrDone(after.activations[results[i].activation.id].phase)
  {
    forall i | 0 <= i < |results|
      ensures results[i].activation.id in after.activations
      ensures IdleOrDone(after.activations[results[i].activation.id].phase)
    {
      assert Ended(before, results[i]) && SettlesOne(before, after, results[i].activation.id);
    }
  }

  lemma DistinctResults(compiled: Compiled, state: RunState, results: seq<Ran>, held: seq<Activation>)
    requires Conserved(compiled, state) && InBatch(state, Items(results) + held)
    ensures forall i, j :: 0 <= i < j < |results| ==> results[i].activation.id != results[j].activation.id
  {
    var front := Items(results) + held;
    assert forall i :: 0 <= i < |results| ==> state.queue[i] == front[i] == results[i].activation;
  }

  /** The next batch item is ready, and starting it changes only its record. */
  lemma StartWorks(compiled: Compiled, state: RunState, batch: seq<Activation>, index: nat)
    requires Conserved(compiled, state) && batch <= state.queue && index < |batch| && InBatch(state, batch[..index])
    ensures StartActivation(state, batch[index].id).Ok?
    ensures var after := StartActivation(state, batch[index].id).value;
            Conserved(compiled, after) && after.queue == state.queue && InBatch(after, batch[..index + 1])
  {
    assert batch[index] == state.queue[index];
    assert StandsInBatch(state, index, index);
    StartConserves(compiled, state, batch[index].id);
    var after := StartActivation(state, batch[index].id).value;
    hide SetsSound, ItersSound, RoutingSound, JoinsSound;
    var count := index + 1;
    forall i | 0 <= i < |after.queue|
      ensures StandsInBatch(after, count, i)
    {
      assert StandsInBatch(state, index, i);
      if i != index {
        assert state.queue[i].id != state.queue[index].id;
      }
    }
  }

  // ----- small facts for releasing -----

  lemma SettlesNothing(state: RunState)
    ensures Settles(state, state)
  {
    forall id | id in state.activations
      ensures SettlesOne(state, state, id)
    {
    }
  }

  lemma NothingToCancel(state: RunState, id: nat)
    requires id in state.sourceSets && NextUnselected(state.queue, id, state.sourceSets[id].selected) == |state.queue|
    ensures Releasable(state, id)
  {
  }

  lemma CompletedHasOutcome(group: SourceSet, branch: nat)
    requires CompletedButUnselected(group, branch)
    ensures branch in group.outcomes
  {
  }

  lemma SelectedHaveOutcomes(compiled: Compiled, state: RunState, id: nat)
    requires Conserved(compiled, state) && id in state.sourceSets
    ensures forall branch :: branch in state.sourceSets[id].selected ==> branch in state.sourceSets[id].outcomes
  {
    assert SetSound(state.activations, id, state.sourceSets[id], 0);
  }

  lemma BucketsSettle(before: RunState, after: RunState)
    requires after == before.(buckets := after.buckets)
    ensures Settles(before, after)
  {
    SettlesNothing(before);
    forall id | id in before.activations
      ensures SettlesOne(before, after, id)
    {
    }
  }

  lemma AppendingSettles(before: RunState, after: RunState)
    requires Appends(before, after, before.queue, None) && JoinsOnlyAdd(before, after)
    ensures Settles(before, after)
  {
    forall id | id in before.activations
      ensures SettlesOne(before, after, id)
    {
    }
    CalmsQuietly(before, after);
  }

  lemma BranchesDealt(group: SourceSet)
    requires group.outcomes.Keys == Elements(group.branches)
    requires forall branch :: branch in group.branches ==> !CompletedButUnselected(group, branch)
    requires forall branch :: branch in group.selected ==> IsCommitted(group, branch)
    ensures FullyDealt(group)
  {
    forall branch | branch in group.outcomes
      ensures if branch in group.selected then group.outcomes[branch].committed
        else group.outcomes[branch].phase != BranchCompleted
    {
      assert branch in Elements(group.branches);
      if branch in group.selected {
        assert IsCommitted(group, branch);
      } else {
        assert !CompletedButUnselected(group, branch);
      }
    }
  }

  /** Settling a set is a matter of its flag only. */
  lemma SettlingSettles(compiled: Compiled, state: RunState, id: nat)
    requires id in state.sourceSets
    ensures Settles(state, SettleSet(state, id)) && SettleSet(state, id).queue == state.queue
    ensures NoneReady(compiled, state) ==> NoneReady(compiled, SettleSet(state, id))
  {
    var after := SettleSet(state, id);
    forall other | other in state.activations
      ensures SettlesOne(state, after, other)
    {
    }
    forall key
      ensures JoinReady(compiled, after, key) <==> JoinReady(compiled, state, key)
    {
      assert forall source ::
        PendingJoinActivations(compiled, after, key, source) == PendingJoinActivations(compiled, state, key, source);
    }
  }

  /** The sets of the scheduler are as deciding them supposes. */
  lemma SetIsCounted(compiled: Compiled, state: RunState, id: nat)
    requires Conserved(compiled, state) && id in state.sourceSets
    ensures Counted(state.sourceSets[id]) && DistinctIndexes(state.sourceSets[id])
    ensures ValidPolicy(state.sourceSets[id].policy)
  {
    var group := state.sourceSets[id];
    assert SetSound(state.activations, id, group, 0);
    forall i, j | 0 <= i < j < |group.branches|
      ensures group.branches[i] != group.branches[j]
    {
      assert BranchAt(state.activations, id, group, i) && BranchAt(state.activations, id, group, j);
    }
    forall left, right | left in group.outcomes && right in group.outcomes && left != right
      ensures group.outcomes[left].activation.branchIndex != group.outcomes[right].activation.branchIndex
    {
      IndexOf(state.activations, id, group, left);
      IndexOf(state.activations, id, group, right);
    }
  }

  lemma IndexOf(activations: map<nat, ActivationRecord>, id: nat, group: SourceSet, branch: nat)
    requires SetSound(activations, id, group, 0) && branch in group.outcomes
    ensures 0 <= group.outcomes[branch].activation.branchIndex < |group.branches|
    ensures group.branches[group.outcomes[branch].activation.branchIndex] == branch
  {
    assert OutcomeSound(activations, group, branch);
    var at :| 0 <= at < |group.branches| && group.branches[at] == branch;
    assert BranchAt(activations, id, group, at);
  }

  lemma FailWorks(compiled: Compiled, state: RunState, id: nat)
    requires Conserved(compiled, state) && id in state.sourceSets && !state.sourceSets[id].decided
    ensures Conserved(compiled, FailSet(state, id)) && Settles(state, FailSet(state, id))
    ensures OthersStay(state, FailSet(state, id), id)
    ensures Underway(FailSet(state, id), id, [], true)
  {
    hide ItersSound;
    UndecidedSelectsNothing(compiled, state, id);
    hide Conserved, OthersStay, Settles;
    FailConserves(compiled, state, id);
    OneSetChanges(state, FailSet(state, id), id);
    FailSettles(state, id);
  }

  lemma FailSettles(state: RunState, id: nat)
    requires id in state.sourceSets
    ensures Settles(state, FailSet(state, id))
  {
    CalmsQuietly(state, FailSet(state, id));
    hide Calms;
    forall other | other in state.activations
      ensures SettlesOne(state, FailSet(state, id), other)
    {
    }
  }

  lemma UndecidedSelectsNothing(compiled: Compiled, state: RunState, id: nat)
    requires Conserved(compiled, state) && id in state.sourceSets && !state.sourceSets[id].decided
    ensures state.sourceSets[id].selected == [] && !state.sourceSets[id].settled
  {
    assert SetSound(state.activations, id, state.sourceSets[id], 0);
  }

  lemma OthersStayOn(first: RunState, second: RunState, third: RunState, id: nat)
    requires OthersStay(first, second, id) && OthersStay(second, third, id) && id in first.sourceSets
    ensures OthersStay(first, third, id)
  {
    hide Unstarted;
  }

  lemma OthersProgress(first: RunState, second: RunState, third: RunState, id: nat)
    requires OthersStay(first, second, id) && Progresses(second, third, id) && id in first.sourceSets
    ensures OthersStay(first, third, id)
  {
  }

  /** Whatever progress is made, the set goes on being released, or failed. */
  lemma StaysUnderway(before: RunState, after: RunState, id: nat)
    requires Progresses(before, after, id)
    ensures forall selected, failed :: Underway(before, id, selected, failed) ==> Underway(after, id, selected, failed)
    ensures after.sourceSets[id].branches == before.sourceSets[id].branches
    ensures after.sourceSets[id].selected == before.sourceSets[id].selected
  {
  }

  lemma SettlingKeepsTold(compiled: Compiled, state: RunState, id: nat)
    requires id in state.sourceSets && UnselectedTold(compiled, state, id)
    ensures UnselectedTold(compiled, SettleSet(state, id), id)
  {
    SameToldAs(compiled, state, SettleSet(state, id));
    var group := state.sourceSets[id];
    forall branch | branch in group.branches && branch !in group.selected
      ensures AllTold(compiled, SettleSet(state, id), group.outcomes[branch].activation)
    {
      StillAllTold(compiled, state, SettleSet(state, id), group.outcomes[branch].activation);
    }
  }

  lemma FailedIsUndecided(compiled: Compiled, state: RunState, id: nat)
    requires Conserved(compiled, state) && id in state.sourceSets && state.sourceSets[id].failed
    ensures !state.sourceSets[id].decided
  {
    assert SetSound(state.activations, id, state.sourceSets[id], 0);
  }

  lemma SuccessSelects(group: SourceSet, successes: seq<nat>)
    requires Successes(group, successes) && Decide(group, successes).Some?
    requires Decide(group, successes).value.ready && !Decide(group, successes).value.failed
    ensures Selects(group, Decide(group, successes).value.selected)
  {
  }

  lemma FailIterWorks(compiled: Compiled, state: RunState, iter: nat, cause: Cause)
    requires Conserved(compiled, state) && iter in OpenSources(state)
    ensures var id := state.iterSources[iter].sourceSet;
            && id in state.sourceSets && !state.sourceSets[id].decided
            && Conserved(compiled, FailIter(state, iter, cause))
            && id in FailIter(state, iter, cause).sourceSets && !FailIter(state, iter, cause).sourceSets[id].decided
  {
    OpenIsUndecided(compiled, state, iter);
    FailIterConserves(compiled, state, iter, cause);
    hide Conserved;
  }

  lemma SettlesCalms(before: RunState, after: RunState)
    requires Settles(before, after)
    ensures Calms(before, after)
  {
  }

  // ----- settling -----

  // What became of a set that was looked at: nothing to do, still open, released,
  // failed, or stopped half way.
  datatype Settling = SetLeft | SetOpen | SetReleased | SetFailed | SetStopped

  ghost predicate SettledOrOpen(state: RunState, id: nat) {
    id in state.sourceSets && (state.sourceSets[id].settled || Undetermined(state.sourceSets[id]))
  }

  /** All sets but some are settled or still open. */
  ghost predicate SettledApartFrom(state: RunState, busy: set<nat>) {
    forall id :: id in state.sourceSets && id !in busy ==> SettledOrOpen(state, id)
  }

  /** Only busy sets have changed, and new ones are unstarted. */
  lemma StaySettledApartFrom(compiled: Compiled, before: RunState, after: RunState, busy: set<nat>)
    requires Conserved(compiled, after) && SettledApartFrom(before, busy) && OnlyUnstarted(before, after)
    requires forall id :: id in before.sourceSets && id !in busy ==>
      id in after.sourceSets && after.sourceSets[id] == before.sourceSets[id]
    ensures SettledApartFrom(after, busy)
  {
    hide Conserved, Undetermined, Unstarted;
    forall id | id in after.sourceSets && id !in busy
      ensures SettledOrOpen(after, id)
    {
      if id in before.sourceSets {
        assert SettledOrOpen(before, id);
      } else {
        SetIsCounted(compiled, after, id);
        UnstartedIsUndetermined(after.sourceSets[id]);
      }
    }
  }

  lemma SettledApartFromMore(state: RunState, busy: set<nat>, more: set<nat>)
    requires SettledApartFrom(state, busy) && busy <= more
    ensures SettledApartFrom(state, more)
  {
  }

  lemma SettledApartFromNone(state: RunState, busy: set<nat>)
    requires SettledApartFrom(state, busy) && forall id :: id in busy ==> SettledOrOpen(state, id)
    ensures SettledApartFrom(state, {})
  {
  }

  lemma SameSetsStaySettled(before: RunState, after: RunState, busy: set<nat>)
    requires SettledApartFrom(before, busy) && after.sourceSets == before.sourceSets
    ensures SettledApartFrom(after, busy)
  {
    hide Undetermined;
    forall id | id in after.sourceSets && id !in busy
      ensures SettledOrOpen(after, id)
    {
      assert SettledOrOpen(before, id);
    }
  }

  /** Settling one busy set leaves the others as settled as they were. */
  lemma SettlingOneStays(compiled: Compiled, before: RunState, after: RunState, id: nat, busy: set<nat>)
    requires Conserved(compiled, after) && SettledApartFrom(before, busy) && OthersStay(before, after, id) && id in busy
    ensures SettledApartFrom(after, busy)
  {
    hide Conserved, Unstarted;
    StaySettledApartFrom(compiled, before, after, busy);
  }

  function SetsOf(results: seq<Ran>): set<nat> {
    set i | 0 <= i < |results| && results[i].activation.sourceSet.Some? :: results[i].activation.sourceSet.value
  }

  lemma InSetsOf(results: seq<Ran>, index: nat)
    requires index < |results|
    ensures results[index].activation.sourceSet.Some? ==> results[index].activation.sourceSet.value in SetsOf(results)
  {
  }

  lemma SetsOfAre(results: seq<Ran>, ids: seq<nat>)
    requires forall id :: id in ids <==> exists i :: 0 <= i < |results| && results[i].activation.sourceSet == Some(id)
    ensures SetsOf(results) == Elements(ids)
  {
  }

  /** Committing an item concerns its own set and new ones. */
  lemma CommitLeavesOthers(compiled: Compiled, before: RunState, ran: Ran, dispatch: Dispatch, fired: seq<Firing>,
                           after: RunState)
    requires Wired(compiled) && Conserved(compiled, before) && Committable(before, ran)
    requires CommitsTo(compiled, before, ran, dispatch, fired, after)
    ensures OnlyUnstarted(before, after)
    ensures forall id :: id in before.sourceSets && ran.activation.sourceSet != Some(id) ==>
      id in after.sourceSets && after.sourceSets[id] == before.sourceSets[id]
  {
    hide QueueSound, SetsSound, ItersSound, RoutingSound, JoinsSound, Finish, Route, CloseAll, FinishedAlone;
    hide Unstarted, FireAll, AllReady;
    if ran.cause.None? && ran.retry.Some? {
    } else if ran.activation.sourceSet.Some? {
      BranchLeavesOthers(before, ran, after);
    } else if CommitActivation(compiled, before, ran, dispatch).Ok? {
      var routed := CommitActivation(compiled, before, ran, dispatch).value;
      var finished := Finish(before, ran).value;
      FinishedIsAlone(before, ran);
      FinishingKeeps(compiled, before, ran, finished);
      FinishedSets(before, ran, finished);
      if ran.result.skipped {
        ClosingOnlyBuckets(compiled, finished, ran.activation, Targets(compiled.edges, ran.activation.node), map[]);
      } else {
        RoutedLeavesSets(compiled, before, ran, finished, dispatch);
      }
      FiringLeavesSets(routed, fired);
    }
  }

  lemma FinishedSets(state: RunState, ran: Ran, finished: RunState)
    requires Finish(state, ran) == Ok(finished)
    ensures finished.sourceSets == state.sourceSets
    ensures ran.activation.id in finished.activations
  {
  }

  lemma RoutedLeavesSets(compiled: Compiled, state: RunState, ran: Ran, finished: RunState, dispatch: Dispatch)
    requires Wired(compiled) && finished.sourceSets == state.sourceSets && ran.activation.id in finished.activations
    requires QueueSound(finished) && SetsSound(finished, None, 0) && ItersSound(compiled, finished, None, 0)
    requires Route(compiled, finished, ran.activation, ran.result.output, dispatch).Ok?
    ensures var routed := Route(compiled, finished, ran.activation, ran.result.output, dispatch).value;
            && OnlyUnstarted(state, routed)
            && forall id :: id in state.sourceSets ==>
                 id in routed.sourceSets && routed.sourceSets[id] == state.sourceSets[id]
  {
    hide QueueSound, SetsSound, Route, Unstarted;
    RouteOpens(compiled, finished, ran.activation, ran.result.output, dispatch);
    RouteBuilds(compiled, finished, ran.activation, ran.result.output, dispatch);
  }

  lemma BranchLeavesOthers(state: RunState, ran: Ran, after: RunState)
    requires ran.activation.sourceSet.Some? && CommitBranch(state, ran) == Ok(after)
    ensures OnlyUnstarted(state, after)
    ensures forall id :: id in state.sourceSets && ran.activation.sourceSet != Some(id) ==>
      id in after.sourceSets && after.sourceSets[id] == state.sourceSets[id]
  {
    hide Unstarted;
  }

  lemma {:induction false} FiringLeavesSets(state: RunState, fired: seq<Firing>)
    ensures FireAll(state, fired).sourceSets == state.sourceSets
  {
    if fired != [] {
      FiringLeavesSets(state, fired[..|fired| - 1]);
    }
  }

  /** A pulled item is one branch more for an open set, which stays open. */
  lemma PulledStaySettled(compiled: Compiled, state: RunState, iter: nat, value: string, cursor: Option<string>)
    requires Conserved(compiled, state) && iter in OpenSources(state) && SettledApartFrom(state, {})
    requires PullItem(compiled, state, iter, value, cursor).Ok?
    requires Conserved(compiled, PullItem(compiled, state, iter, value, cursor).value)
    ensures SettledApartFrom(PullItem(compiled, state, iter, value, cursor).value, {})
  {
    hide QueueSound, SetsSound, ItersSound, RoutingSound, JoinsSound, PullItem, Undetermined, Counted;
    var after, id := PullItem(compiled, state, iter, value, cursor).value, state.iterSources[iter].sourceSet;
    PulledGroup(compiled, state, iter, value, cursor);
    SetIsCounted(compiled, state, id);
    SetIsCounted(compiled, after, id);
    OpenSetHasSources(compiled, state, iter);
    hide Conserved;
    assert SettledOrOpen(state, id);
    GrowingStaysUndetermined(state.sourceSets[id], after.sourceSets[id]);
    forall other | other in after.sourceSets
      ensures SettledOrOpen(after, other)
    {
      if other != id {
        assert SettledOrOpen(state, other);
      }
    }
  }

  lemma PulledGroup(compiled: Compiled, state: RunState, iter: nat, value: string, cursor: Option<string>)
    requires iter in state.iterSources && PullItem(compiled, state, iter, value, cursor).Ok?
    ensures var after, id := PullItem(compiled, state, iter, value, cursor).value, state.iterSources[iter].sourceSet;
            && id in state.sourceSets && id in after.sourceSets
            && after.sourceSets == state.sourceSets[id := after.sourceSets[id]]
            && after.sourceSets[id]
                 == state.sourceSets[id].(expected := after.sourceSets[id].expected,
                   branches := after.sourceSets[id].branches)
  {
    hide NextCorrelation, TrackCorrelation, Bump;
  }

  /** The set of an open iterator counts it, and is not settled. */
  lemma OpenSetHasSources(compiled: Compiled, state: RunState, iter: nat)
    requires Conserved(compiled, state) && iter in OpenSources(state)
    ensures var id := state.iterSources[iter].sourceSet;
      id in state.sourceSets && state.sourceSets[id].openSources > 0 && !state.sourceSets[id].settled
  {
    var id := state.iterSources[iter].sourceSet;
    OpenIsUndecided(compiled, state, iter);
    UndecidedSelectsNothing(compiled, state, id);
    assert iter in OpenIters(state.iterSources, id);
  }

  /** So is an exhausted iterator's set once it was looked at. */
  lemma ExhaustedStaySettled(compiled: Compiled, before: RunState, iter: nat, closed: RunState, after: RunState)
    requires iter in before.iterSources && CloseIter(before, iter) == Ok(closed) && SettledApartFrom(before, {})
    requires Conserved(compiled, after)
    requires var id := before.iterSources[iter].sourceSet; OthersStay(closed, after, id) && SettledOrOpen(after, id)
    ensures SettledApartFrom(after, {})
  {
    var id := before.iterSources[iter].sourceSet;
    ClosedIter(before, iter);
    hide Conserved, CloseIter, Undetermined, Unstarted;
    forall other | other in closed.sourceSets && other !in {id}
      ensures SettledOrOpen(closed, other)
    {
      assert SettledOrOpen(before, other);
    }
    SettlingOneStays(compiled, closed, after, id, {id});
    SettledApartFromNone(after, {id});
  }

  // ----- the end of a run -----

  /** Nothing is left to do, and nothing was left undone. */
  ghost predicate WoundUp(state: RunState) {
    && state.queue == [] && OpenSources(state) == {}
    && (forall id :: id in state.sourceSets ==> state.sourceSets[id].settled)
    && (forall id :: id in state.activations ==> Accounted(state, id))
  }

  /** The activation is done; if it completed it was routed, once, or it is a branch
      its set did not select. */
  ghost predicate Accounted(state: RunState, id: nat)
    requires id in state.activations
  {
    && !Pending(state.activations[id].phase)
    && (state.activations[id].phase == Completed && id !in state.routed ==>
          && state.activations[id].activation.sourceSet.Some?
          && var of := state.activations[id].activation.sourceSet.value;
             of in state.sourceSets && id in state.sourceSets[of].outcomes
               && state.sourceSets[of].outcomes[id].phase == BranchSuperseded)
  }

  /** When nothing is queued and no iterator is open, whatever is not settled yet is
      determined: a run with all its sets settled or open has wound up. */
  lemma NothingLeftIsWoundUp(compiled: Compiled, state: RunState)
    requires Conserved(compiled, state) && SettledApartFrom(state, {}) && state.queue == [] && OpenSources(state) == {}
    ensures WoundUp(state)
  {
    forall id | id in state.sourceSets
      ensures state.sourceSets[id].settled
    {
      assert SettledOrOpen(state, id);
      DrainedIsDetermined(compiled, state, id);
    }
    forall id | id in state.activations
      ensures Accounted(state, id)
    {
      hide Undetermined;
      DrainedIsAccounted(compiled, state, id);
    }
  }

  lemma DrainedIsDetermined(compiled: Compiled, state: RunState, id: nat)
    requires Conserved(compiled, state) && id in state.sourceSets && state.queue == [] && OpenSources(state) == {}
    ensures !Undetermined(state.sourceSets[id])
  {
    var group := state.sourceSets[id];
    SetIsCounted(compiled, state, id);
    BranchesHaveOutcomes(compiled, state, id);
    assert OpenIters(state.iterSources, id) == {};
    assert group.openSources == 0;
    hide Conserved;
    assert Outstanding(group) == {};
    OutstandingCount(group);
    if group.policy == All {
      NeverIffFailure(group);
      CertainIffWhole(group);
    } else {
      CertainIffEnough(group);
      NeverIffTooFew(group);
    }
  }

  lemma DrainedIsAccounted(compiled: Compiled, state: RunState, id: nat)
    requires Conserved(compiled, state) && id in state.activations && state.queue == []
    requires forall of :: of in state.sourceSets ==> state.sourceSets[of].settled
    ensures Accounted(state, id)
  {
    assert QueueIDs(state.queue) == {};
    assert !Pending(state.activations[id].phase);
    if state.activations[id].phase == Completed && id !in state.routed {
      assert !Released(state, id);
      var of := state.activations[id].activation.sourceSet.value;
      var group := state.sourceSets[of];
      assert SetSound(state.activations, of, group, 0);
      assert id in group.outcomes;
      assert OutcomeSound(state.activations, group, id);
    }
  }

  /** Which of these becomes of a set, and what it makes of the state. */
  ghost predicate SettlesAs(compiled: Compiled, before: RunState, after: RunState, id: nat, settling: Settling) {
    match settling
    case SetLeft => after == before && (id !in before.sourceSets || before.sourceSets[id].settled)
    case SetOpen =>
      && after == before && id in before.sourceSets && Undetermined(before.sourceSets[id])
      && !before.sourceSets[id].decided && !before.sourceSets[id].failed
    case SetReleased =>
      && id in before.sourceSets && !before.sourceSets[id].settled && !before.sourceSets[id].failed
      && ReleasedFully(after, id) && UnselectedTold(compiled, after, id) && NoneReady(compiled, after)
      && Unrelated(before.queue, id) <= after.queue && after.sourceSets[id].branches == before.sourceSets[id].branches
      && (if before.sourceSets[id].decided then after.sourceSets[id].selected == before.sourceSets[id].selected
          else
            && CertainlySatisfied(before.sourceSets[id])
            && Selects(before.sourceSets[id], after.sourceSets[id].selected))
    case SetFailed =>
      && id in before.sourceSets && !before.sourceSets[id].decided
      && FailedFully(after, id) && UnselectedTold(compiled, after, id)
      && (before.sourceSets[id].failed || NeverSatisfied(before.sourceSets[id]))
    case SetStopped => id in before.sourceSets && !before.sourceSets[id].settled
  }

  /** The selection is the one the policy makes. */
  ghost predicate Selects(group: SourceSet, selected: seq<nat>) {
    exists ranking :: Successes(group, ranking) && Decide(group, ranking) == Some(Decision(selected, false, true))
  }

  lemma SettledIsThere(state: RunState, id: nat)
    requires SettledOrOpen(state, id)
    ensures id in state.sourceSets
  {
  }

  lemma SettledAs(compiled: Compiled, before: RunState, after: RunState, id: nat, settling: Settling)
    requires SettlesAs(compiled, before, after, id, settling) && settling != SetFailed && settling != SetStopped
    requires id in before.sourceSets
    ensures SettledOrOpen(after, id)
  {
  }

  lemma StaysSettledOrOpen(before: RunState, after: RunState, id: nat, other: nat)
    requires SettledOrOpen(before, id) && OthersStay(before, after, other) && id != other
    ensures SettledOrOpen(after, id)
  {
  }

  lemma StuckOn(state: RunState, id: nat, index: nat)
    requires id in state.sourceSets && index < |state.queue| && state.queue[index].sourceSet == Some(id)
    requires state.queue[index].id !in state.sourceSets[id].selected && !ReadyAt(state, index)
    ensures !Releasable(state, id)
  {
  }

  lemma BatchStays(before: RunState, after: RunState, batch: seq<Activation>)
    requires InBatch(before, batch) && after == before.(nextCompletion := after.nextCompletion)
    ensures InBatch(after, batch)
  {
    forall i | 0 <= i < |after.queue|
      ensures StandsInBatch(after, |batch|, i)
    {
      assert StandsInBatch(before, |batch|, i);
    }
  }

  /** Settling sets leaves everything queued ready. */
  lemma SettledIsReady(compiled: Compiled, before: RunState, after: RunState)
    requires Conserved(compiled, before) && Conserved(compiled, after) && InBatch(before, []) && Settles(before, after)
    ensures InBatch(after, [])
  {
    forall i | 0 <= i < |after.queue|
      ensures StandsInBatch(after, 0, i)
    {
      QueuedIsPending(after, i);
      var id := after.queue[i].id;
      if id in before.activations {
        assert SettlesOne(before, after, id);
        QueuedWhilePending(compiled, before, id);
      }
    }
  }

  lemma QueuedWhilePending(compiled: Compiled, state: RunState, id: nat)
    requires Conserved(compiled, state) && InBatch(state, []) && id in state.activations
    requires Pending(state.activations[id].phase)
    ensures state.activations[id].phase == Ready
  {
    assert id in QueueIDs(state.queue);
    var i :| 0 <= i < |state.queue| && state.queue[i].id == id;
    assert StandsInBatch(state, 0, i);
  }

  // ----- reordering an interrupted batch -----

  /** The results that are interrupted, or those that are not, in order. */
  function Chosen(results: seq<Ran>, interrupted: set<nat>, which: bool): seq<Ran> {
    if results == [] then []
    else
      (if (results[0].activation.id in interrupted) == which then [results[0]] else [])
      + Chosen(results[1..], interrupted, which)
  }

  /** The batch at the front of the queue with its interrupted items moved behind the others. */
  function Reordered(queue: seq<Activation>, results: seq<Ran>, interrupted: set<nat>): seq<Activation> {
    Items(Chosen(results, interrupted, false)) + Items(Chosen(results, interrupted, true))
    + (if |results| <= |queue| then queue[|results|..] else [])
  }

  lemma {:induction false} ChosenAtMost(results: seq<Ran>, interrupted: set<nat>, which: bool)
    ensures |Chosen(results, interrupted, which)| <= |results|
  {
    if results != [] {
      ChosenAtMost(results[1..], interrupted, which);
    }
  }

  lemma ItemsStep(results: seq<Ran>)
    requires results != []
    ensures Items(results) == [results[0].activation] + Items(results[1..])
  {
  }

  lemma ChosenStep(results: seq<Ran>, interrupted: set<nat>)
    requires results != []
    ensures var which := results[0].activation.id in interrupted;
            && Items(Chosen(results, interrupted, which))
                 == [results[0].activation] + Items(Chosen(results[1..], interrupted, which))
            && Items(Chosen(results, interrupted, !which)) == Items(Chosen(results[1..], interrupted, !which))
  {
    var which := results[0].activation.id in interrupted;
    var chosen := Chosen(results, interrupted, which);
    assert chosen == [results[0]] + Chosen(results[1..], interrupted, which);
    assert chosen[1..] == Chosen(results[1..], interrupted, which);
    ItemsStep(chosen);
    assert Chosen(results, interrupted, !which) == Chosen(results[1..], interrupted, !which);
  }

  /** Reordering moves activations only: the same are queued as before. */
  lemma {:induction false} ChosenSplit(results: seq<Ran>, interrupted: set<nat>, node: string)
    ensures var finished, held := Items(Chosen(results, interrupted, false)), Items(Chosen(results, interrupted, true));
            && QueueCount(finished, node) + QueueCount(held, node) == QueueCount(Items(results), node)
            && multiset(finished) + multiset(held) == multiset(Items(results))
  {
    if results != [] {
      var first, rest, which := results[0].activation, results[1..], results[0].activation.id in interrupted;
      ChosenSplit(rest, interrupted, node);
      ItemsStep(results);
      ChosenStep(results, interrupted);
      hide Items, Chosen;
      CountJoined([first], Items(rest), node);
      CountJoined([first], Items(Chosen(rest, interrupted, which)), node);
    }
  }

  lemma ReorderedIsPermuted(queue: seq<Activation>, results: seq<Ran>, interrupted: set<nat>)
    requires Items(results) <= queue
    ensures multiset(Reordered(queue, results, interrupted)) == multiset(queue)
    ensures forall node :: QueueCount(Reordered(queue, results, interrupted), node) == QueueCount(queue, node)
  {
    var finished, held, rest :=
      Items(Chosen(results, interrupted, false)), Items(Chosen(results, interrupted, true)), queue[|results|..];
    assert queue == Items(results) + rest;
    assert Reordered(queue, results, interrupted) == finished + held + rest;
    forall node
      ensures QueueCount(finished + held + rest, node) == QueueCount(queue, node)
    {
      ChosenSplit(results, interrupted, node);
      CountJoined(finished + held, rest, node);
      CountJoined(finished, held, node);
      CountJoined(Items(results), rest, node);
    }
    ChosenSplit(results, interrupted, "");
  }

  /** After reordering the batch is still what the queue starts with, the items that
      were not interrupted first. */
  lemma ReorderWorks(compiled: Compiled, state: RunState, results: seq<Ran>, interrupted: set<nat>)
    requires Conserved(compiled, state) && InBatch(state, Items(results))
    ensures var after := state.(queue := Reordered(state.queue, results, interrupted));
            && Conserved(compiled, after) && multiset(after.queue) == multiset(state.queue)
            && InBatch(after, Items(Chosen(results, interrupted, false)) + Items(Chosen(results, interrupted, true)))
  {
    var queue, permuted := state.queue, Reordered(state.queue, results, interrupted);
    var front := Items(Chosen(results, interrupted, false)) + Items(Chosen(results, interrupted, true));
    ReorderedIsPermuted(queue, results, interrupted);
    PermutedConserves(compiled, state, permuted);
    ChosenSplit(results, interrupted, "");
    hide Conserved, Reordered, Chosen;
    ReorderedIs(queue, results, interrupted);
    StillInBatch(state, Items(results), front, state.(queue := permuted));
  }

  lemma StillInBatch(state: RunState, batch: seq<Activation>, front: seq<Activation>, after: RunState)
    requires InBatch(state, batch) && multiset(front) == multiset(batch)
    requires after == state.(queue := front + state.queue[|batch|..])
    ensures InBatch(after, front)
  {
    SameItems(batch, front);
    assert |front| == |multiset(front)| == |multiset(batch)| == |batch|;
    forall i | 0 <= i < |after.queue|
      ensures StandsInBatch(after, |front|, i)
    {
      if i < |front| {
        assert front[i] in batch;
        var at :| 0 <= at < |batch| && batch[at] == front[i];
        assert state.queue[at] == front[i];
        assert StandsInBatch(state, |batch|, at);
      } else {
        assert after.queue[i] == state.queue[i];
        assert StandsInBatch(state, |batch|, i);
      }
    }
  }

  lemma ReorderedIs(queue: seq<Activation>, results: seq<Ran>, interrupted: set<nat>)
    requires |results| <= |queue|
    ensures Reordered(queue, results, interrupted)
         == Items(Chosen(results, interrupted, false)) + Items(Chosen(results, interrupted, true)) + queue[|results|..]
  {
  }

  predicate IsInterrupted(state: RunState, id: nat) {
    id in state.activations && state.activations[id].phase == Interrupted
  }

  // ----- small facts for iterators -----

  ghost predicate NobodyInterrupted(state: RunState) {
    forall id :: id in state.activations ==> state.activations[id].phase != Interrupted
  }

  lemma ResumedIsReady(compiled: Compiled, state: RunState, resolved: bool)
    requires Conserved(compiled, state) && Conserved(compiled, PrepareResume(state, resolved))
    ensures resolved || NobodyInterrupted(state) ==> InBatch(PrepareResume(state, resolved), [])
  {
    var after := PrepareResume(state, resolved);
    if resolved || NobodyInterrupted(state) {
      forall i | 0 <= i < |after.queue|
        ensures StandsInBatch(after, 0, i)
      {
        QueuedIsPending(after, i);
      }
    }
  }

  lemma OpenIsUndecided(compiled: Compiled, state: RunState, iter: nat)
    requires Conserved(compiled, state) && iter in OpenSources(state)
    ensures state.iterSources[iter].sourceSet in state.sourceSets
    ensures !state.sourceSets[state.iterSources[iter].sourceSet].decided
  {
    assert IterAt(compiled, state, state.iterSources[iter]);
  }

  lemma PullWorks(compiled: Compiled, state: RunState, iter: nat, value: string, cursor: Option<string>)
    requires Conserved(compiled, state) && iter in OpenSources(state)
    ensures PullItem(compiled, state, iter, value, cursor).Ok?
    ensures var after := PullItem(compiled, state, iter, value, cursor).value;
            && Conserved(compiled, after) && Settles(state, after) && |after.queue| == |state.queue| + 1
            && Unrouted(after) == Unrouted(state) && OpenSources(after) == OpenSources(state)
  {
    assert IterAt(compiled, state, state.iterSources[iter]);
    var after := PullItem(compiled, state, iter, value, cursor).value;
    PullConserves(compiled, state, iter, value, cursor);
    PulledSettles(state, iter, value, cursor, compiled);
  }

  lemma PulledSettles(state: RunState, iter: nat, value: string, cursor: Option<string>, compiled: Compiled)
    requires QueueSound(state) && iter in OpenSources(state) && PullItem(compiled, state, iter, value, cursor).Ok?
    ensures var after := PullItem(compiled, state, iter, value, cursor).value;
            && Settles(state, after) && |after.queue| == |state.queue| + 1
            && Unrouted(after) == Unrouted(state) && OpenSources(after) == OpenSources(state)
  {
    var after, id := PullItem(compiled, state, iter, value, cursor).value, state.nextActSeq;
    PulledRecords(compiled, state, iter, value, cursor);
    hide QueueSound, PullItem;
    forall other | other in state.activations
      ensures SettlesOne(state, after, other)
    {
    }
    CalmsQuietly(state, after);
  }

  lemma PulledRecords(compiled: Compiled, state: RunState, iter: nat, value: string, cursor: Option<string>)
    requires QueueSound(state) && iter in OpenSources(state) && PullItem(compiled, state, iter, value, cursor).Ok?
    ensures var after, id := PullItem(compiled, state, iter, value, cursor).value, state.nextActSeq;
            && id !in state.activations && id in after.activations && after.activations[id].phase == Ready
            && after.activations == state.activations[id := after.activations[id]]
            && after.routed == state.routed && |after.queue| == |state.queue| + 1
            && OpenSources(after) == OpenSources(state)
  {
  }

  lemma ExhaustWorks(compiled: Compiled, state: RunState, iter: nat)
    requires Conserved(compiled, state) && iter in OpenSources(state)
    ensures CloseIter(state, iter).Ok?
    ensures var after := CloseIter(state, iter).value;
            && Conserved(compiled, after) && Settles(state, after)
            && Unrouted(after) == Unrouted(state) && OpenSources(after) < OpenSources(state)
            && state.iterSources[iter].sourceSet in after.sourceSets
  {
    hide ItersSound, QueueSound, SetsSound, RoutingSound, JoinsSound, Settles;
    OpenIsCounted(compiled, state, iter);
    var after := CloseIter(state, iter).value;
    ExhaustConserves(compiled, state, iter);
    hide Conserved;
    assert iter in OpenSources(state) && iter !in OpenSources(after);
    ExhaustSettles(state, iter);
  }

  lemma ExhaustSettles(state: RunState, iter: nat)
    requires CloseIter(state, iter).Ok?
    ensures Settles(state, CloseIter(state, iter).value)
  {
    var after := CloseIter(state, iter).value;
    forall other | other in state.activations
      ensures SettlesOne(state, after, other)
    {
    }
    CalmsQuietly(state, after);
  }

  /** An open iterator is one its set counts. */
  lemma OpenIsCounted(compiled: Compiled, state: RunState, iter: nat)
    requires ItersSound(compiled, state, None, 0) && iter in OpenSources(state)
    ensures CloseIter(state, iter).Ok?
  {
    assert IterAt(compiled, state, state.iterSources[iter]);
    assert iter in OpenIters(state.iterSources, state.iterSources[iter].sourceSet);
  }
}
