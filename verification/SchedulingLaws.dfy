/** What holds of the scheduler after any operations in any order, whatever ran and
    however often it was stopped and resumed in between. */
module SchedulingLaws {
  import opened Options
  import opened Topology
  import opened RunState
  import opened Joins
  import opened Settle
  import opened Conservation
  import opened Scheduling
  import opened SchedulingSafety
  import opened RoutingSafety

  lemma ConservedBuilds(compiled: Compiled, state: RunState)
    requires QueueSound(state) && SetsSound(state, None, 0) && ItersSound(compiled, state, None, 0)
    ensures Building(compiled, state, None, 0, 0)
  {
  }

  // ----- standalone activations -----

  /** A finished standalone activation is out of the queue and still to be routed. */
  ghost predicate FinishedAlone(state: RunState, ran: Ran, after: RunState) {
    && state.queue != [] && ran.activation == state.queue[0] && TrackedAs(state.activations, ran.activation)
    && ran.activation.id in after.activations
    && var record := after.activations[ran.activation.id];
       && record.activation == ran.activation && record.phase == (if ran.result.skipped then Skipped else Completed)
       && after == state.(queue := state.queue[1..], completed := Bump(state.completed, ran.activation.node),
                          activations := state.activations[ran.activation.id := record])
  }

  lemma FinishedIsAlone(state: RunState, ran: Ran)
    requires QueueSound(state) && state.queue != [] && ran.activation == state.queue[0] && ran.cause.None?
    requires Finish(state, ran).Ok?
    ensures FinishedAlone(state, ran, Finish(state, ran).value)
  {
    assert TrackedAs(state.activations, state.queue[0]);
  }

  lemma FinishingKeeps(compiled: Compiled, state: RunState, ran: Ran, after: RunState)
    requires Conserved(compiled, state) && FinishedAlone(state, ran, after) && ran.activation.sourceSet.None?
    ensures QueueSound(after) && SetsSound(after, None, 0) && ItersSound(compiled, after, None, 0)
    ensures JoinsSound(compiled, View(after), None)
    ensures ran.activation.id !in state.routed
  {
    hide QueueSound, SetsSound, ItersSound, RoutingSound, JoinsSound;
    QueuedIsPending(state, 0);
    PendingIsUnrouted(state, ran.activation.id);
    assert state.queue[1..] == Without(state.queue, 0);
    TakingKeepsQueue(state, 0, after.activations[ran.activation.id], after);
    assert Places(after.activations) == Places(state.activations);
    assert View(after) == View(state);
    hide View;
    SameBranchesKeepSets(state, after, None, 0);
    ItersStay(compiled, state, after, None, 0);
  }

  lemma PendingIsUnrouted(state: RunState, id: nat)
    requires RoutingSound(state) && id in state.activations && Pending(state.activations[id].phase)
    ensures id !in state.routed
  {
    assert !Released(state, id);
  }

  /** After routing the activation, exactly it is newly routed. */
  lemma OneMoreRouted(state: RunState, finished: RunState, after: RunState, ran: Ran)
    requires RoutingSound(state) && FinishedAlone(state, ran, finished) && ran.activation.sourceSet.None?
    requires !ran.result.skipped
    requires SetsSound(state, None, 0) && Spreads(finished, after, None)
    requires after.routed == state.routed + [ran.activation.id]
    requires ran.activation.id !in state.routed
    ensures RoutingSound(after)
  {
    forall id: nat
      ensures id in after.routed <==> Released(after, id)
    {
      assert id in after.routed <==> id in state.routed || id == ran.activation.id;
      assert id in state.routed <==> Released(state, id);
    }
  }

  lemma NoneMoreRouted(state: RunState, after: RunState, ran: Ran)
    requires RoutingSound(state) && FinishedAlone(state, ran, after) && ran.result.skipped
    requires ran.activation.id !in state.routed
    ensures RoutingSound(after)
  {
    forall id: nat
      ensures id in after.routed <==> Released(after, id)
    {
      assert id in state.routed <==> Released(state, id);
    }
  }

  lemma StandaloneConserves(compiled: Compiled, state: RunState, ran: Ran, dispatch: Dispatch)
    requires Wired(compiled) && Conserved(compiled, state) && Enabled(compiled, state, CommitStandalone(ran, dispatch))
    requires CommitActivation(compiled, state, ran, dispatch).Ok?
    ensures Conserved(compiled, CommitActivation(compiled, state, ran, dispatch).value)
  {
    hide QueueSound, SetsSound, ItersSound, RoutingSound, JoinsSound, Finish, FinishedAlone, Route, CloseAll;
    var finished, after := Finish(state, ran).value, CommitActivation(compiled, state, ran, dispatch).value;
    FinishedIsAlone(state, ran);
    FinishingKeeps(compiled, state, ran, finished);
    FinishedPlace(state, ran, finished);
    if ran.result.skipped {
      NoneMoreRouted(state, finished, ran);
      UnselectedKeeps(compiled, finished, ran.activation);
      BucketsConserve(compiled, finished, after);
    } else {
      ConservedBuilds(compiled, finished);
      IdsAreFresh(finished);
      PositiveIters(compiled, finished);
      RouteBuilds(compiled, finished, ran.activation, ran.result.output, dispatch);
      RouteKeeps(compiled, finished, ran.activation, ran.result.output, dispatch);
      OneMoreRouted(state, finished, after, ran);
    }
  }

  lemma FinishedPlace(state: RunState, ran: Ran, finished: RunState)
    requires FinishedAlone(state, ran, finished)
    ensures finished.routed == state.routed && ran.activation.id in finished.activations
    ensures finished.activations[ran.activation.id].activation == ran.activation
  {
  }

  lemma IdsAreFresh(state: RunState)
    requires QueueSound(state)
    ensures FreshIDs(state)
  {
  }

  lemma PositiveIters(compiled: Compiled, state: RunState)
    requires ItersSound(compiled, state, None, 0)
    ensures state.nextIterSeq > 0
  {
  }

  /** Buckets are nobody's business but the joins'. */
  lemma BucketsConserve(compiled: Compiled, state: RunState, after: RunState)
    requires QueueSound(state) && SetsSound(state, None, 0) && ItersSound(compiled, state, None, 0)
    requires RoutingSound(state)
    requires after == state.(buckets := after.buckets) && JoinsSound(compiled, View(after), None)
    ensures Conserved(compiled, after)
  {
    ConservedBuilds(compiled, state);
    BucketsDoNotMatter(compiled, state, after.buckets, state.joined, state.routed, None, 0, 0);
    assert after == state.(buckets := after.buckets, joined := state.joined, routed := state.routed);
    forall id: nat
      ensures Released(after, id) <==> Released(state, id)
    {
    }
  }

  // ----- releasing a branch -----

  /** What a set knows of a branch with an outcome. */
  lemma OutcomeFacts(compiled: Compiled, state: RunState, id: nat, branch: nat)
    requires Conserved(compiled, state) && id in state.sourceSets && branch in state.sourceSets[id].outcomes
    ensures branch in state.activations
    ensures state.sourceSets[id].outcomes[branch].activation == state.activations[branch].activation
    ensures state.activations[branch].activation.id == branch
    ensures state.activations[branch].activation.sourceSet == Some(id)
    ensures branch in state.routed <==> state.sourceSets[id].outcomes[branch].committed
    ensures branch in state.sourceSets[id].selected ==>
              state.sourceSets[id].outcomes[branch].phase == BranchCompleted
                && state.activations[branch].phase == Completed
    ensures state.sourceSets[id].outcomes[branch].committed ==> branch in state.sourceSets[id].selected
  {
    var group := state.sourceSets[id];
    assert SetSound(state.activations, id, group, 0) && OutcomeSound(state.activations, group, branch);
    var at :| 0 <= at < |group.branches| && group.branches[at] == branch;
    assert BranchAt(state.activations, id, group, at);
    assert branch in state.routed <==> Released(state, branch);
  }

  /** Marking a routed branch as committed. */
  ghost predicate Marked(routed: RunState, id: nat, branch: nat, after: RunState) {
    && id in routed.sourceSets && branch in routed.sourceSets[id].outcomes
    && var group := routed.sourceSets[id];
       after == routed.(sourceSets := routed.sourceSets[id := group.(
                  outcomes := group.outcomes[branch := group.outcomes[branch].(committed := true)])])
  }

  lemma ReleasedIsMarked(compiled: Compiled, state: RunState, id: nat, branch: nat, dispatch: Dispatch,
                         routed: RunState)
    requires id in state.sourceSets && branch in state.sourceSets[id].outcomes
    requires !state.sourceSets[id].outcomes[branch].committed
    requires ReleaseBranch(compiled, state, id, branch, dispatch).Ok?
    requires var outcome := state.sourceSets[id].outcomes[branch];
             Route(compiled, state, outcome.activation, outcome.result.output, dispatch) == Ok(routed)
    requires Spreads(state, routed, None)
    ensures Marked(routed, id, branch, ReleaseBranch(compiled, state, id, branch, dispatch).value)
  {
  }

  lemma MarkingConserves(compiled: Compiled, routed: RunState, id: nat, branch: nat, after: RunState)
    requires Building(compiled, routed, None, 0, 0) && JoinsSound(compiled, View(routed), None)
    requires Marked(routed, id, branch, after)
    requires routed.sourceSets[id].decided && branch in routed.sourceSets[id].selected
    ensures QueueSound(after) && SetsSound(after, None, 0) && ItersSound(compiled, after, None, 0)
    ensures JoinsSound(compiled, View(after), None)
  {
    hide SetSound;
    var group := routed.sourceSets[id];
    hide QueueSound, JoinsSound, View;
    SameQueue(routed, after);
    SameView(routed, after);
    MarkingKeepsSets(routed, id, branch, after);
    hide SetsSound;
    ItersStay(compiled, routed, after, None, 0);
  }

  lemma MarkingKeepsSets(routed: RunState, id: nat, branch: nat, after: RunState)
    requires SetsSound(routed, None, 0) && Marked(routed, id, branch, after)
    requires routed.sourceSets[id].decided && branch in routed.sourceSets[id].selected
    ensures SetsSound(after, None, 0)
  {
    hide SetSound;
    MarkedIsSound(routed.activations, id, routed.sourceSets[id], branch);
    hide SetsSound;
    GroupKeepsSets(routed, after, id, None, 0, 0);
  }

  lemma MarkedIsSound(activations: map<nat, ActivationRecord>, id: nat, group: SourceSet, branch: nat)
    requires SetSound(activations, id, group, 0) && group.decided && branch in group.selected
      && branch in group.outcomes
    ensures SetSound(activations, id, group.(
      outcomes := group.outcomes[branch := group.outcomes[branch].(committed := true)]), 0)
  {
    hide ValidPolicy, PhaseAgrees;
    var after := group.(outcomes := group.outcomes[branch := group.outcomes[branch].(committed := true)]);
    assert forall other :: other in group.outcomes ==> OutcomeSound(activations, group, other);
    GroupReflagged(activations, id, group, after);
    hide SetSound;
  }

  lemma MarkingKeepsRouting(state: RunState, routed: RunState, id: nat, branch: nat, after: RunState)
    requires RoutingSound(state) && Spreads(state, routed, None) && routed.routed == state.routed + [branch]
    requires branch !in state.routed
    requires Marked(routed, id, branch, after) && id in state.sourceSets && branch in state.activations
    requires state.activations[branch].phase == Completed && state.activations[branch].activation.sourceSet == Some(id)
    requires SetsSound(state, None, 0)
    ensures RoutingSound(after)
  {
    hide SetSound;
    forall other: nat
      ensures other in after.routed <==> Released(after, other)
    {
      assert other in after.routed <==> other in state.routed || other == branch;
      assert other in state.routed <==> Released(state, other);
    }
  }

  lemma ReleaseConserves(compiled: Compiled, state: RunState, id: nat, branch: nat, dispatch: Dispatch)
    requires Wired(compiled) && Conserved(compiled, state) && id in state.sourceSets
    requires branch in state.sourceSets[id].outcomes
    requires branch in state.sourceSets[id].selected && state.sourceSets[id].decided
    requires ReleaseBranch(compiled, state, id, branch, dispatch).Ok?
    ensures Conserved(compiled, ReleaseBranch(compiled, state, id, branch, dispatch).value)
  {
    var outcome, after :=
      state.sourceSets[id].outcomes[branch], ReleaseBranch(compiled, state, id, branch, dispatch).value;
    if !outcome.committed {
      var output := outcome.result.output;
      var routed := Route(compiled, state, outcome.activation, output, dispatch).value;
      OutcomeFacts(compiled, state, id, branch);
      ConservedBuilds(compiled, state);
      IdsAreFresh(state);
      PositiveIters(compiled, state);
      hide QueueSound, SetsSound, ItersSound, RoutingSound, JoinsSound, Route, ReleaseBranch, Building, Marked;
      RouteBuilds(compiled, state, outcome.activation, output, dispatch);
      RouteKeeps(compiled, state, outcome.activation, output, dispatch);
      ReleasedIsMarked(compiled, state, id, branch, dispatch, routed);
      MarkingConserves(compiled, routed, id, branch, after);
      MarkingKeepsRouting(state, routed, id, branch, after);
    }
  }

  lemma CloseConserves(compiled: Compiled, state: RunState, id: nat, branch: nat)
    requires Conserved(compiled, state) && Enabled(compiled, state, CloseOne(id, branch))
    ensures CloseJoinExpectations(compiled, state, state.sourceSets[id].outcomes[branch].activation, map[]).Ok?
    ensures Conserved(compiled,
      CloseJoinExpectations(compiled, state, state.sourceSets[id].outcomes[branch].activation, map[]).value)
  {
    var source := state.sourceSets[id].outcomes[branch].activation;
    OutcomeFacts(compiled, state, id, branch);
    hide QueueSound, SetsSound, ItersSound, RoutingSound, JoinsSound, CloseAll;
    UnselectedKeeps(compiled, state, source);
    BucketsConserve(compiled, state, CloseJoinExpectations(compiled, state, source, map[]).value);
  }

  // ----- joins and iterators -----

  lemma SpreadingKeepsRouting(state: RunState, after: RunState)
    requires RoutingSound(state) && SetsSound(state, None, 0) && after.routed == state.routed
    requires Spreads(state, after, None)
    ensures RoutingSound(after)
  {
    forall id: nat
      ensures Released(after, id) <==> Released(state, id)
    {
    }
  }

  lemma FireConserves(compiled: Compiled, state: RunState, key: JoinKey, input: string)
    requires Conserved(compiled, state) && JoinReady(compiled, state, key)
    ensures Conserved(compiled, MaterializeJoin(state, key, input))
  {
    var after, enqueued :=
      MaterializeJoin(state, key, input), Enqueue(state, key.target, input, None, 0, key.correlation);
    ConservedBuilds(compiled, state);
    IdsAreFresh(state);
    MaterializeKeeps(compiled, state, key, input);
    hide QueueSound, SetsSound, ItersSound, RoutingSound, JoinsSound, JoinReady;
    RoutingSafety.StandaloneConserves(compiled, state, key.target, input, key.correlation);
    BucketsDoNotMatter(compiled, enqueued, after.buckets, after.joined, enqueued.routed, None, 0, 0);
    assert after == enqueued.(buckets := after.buckets, joined := after.joined, routed := enqueued.routed);
    SpreadingKeepsRouting(state, after);
  }

  /** Pulling an item: the set expects one branch more, and gets it. */
  lemma PullConserves(compiled: Compiled, state: RunState, iter: nat, value: string, cursor: Option<string>)
    requires Conserved(compiled, state) && iter in state.iterSources && state.iterSources[iter].open
    requires PullItem(compiled, state, iter, value, cursor).Ok?
    ensures Conserved(compiled, PullItem(compiled, state, iter, value, cursor).value)
  {
    var source := state.iterSources[iter];
    var id, item, group :=
      source.sourceSet, state.activations[source.sourceID].activation, state.sourceSets[source.sourceSet];
    var correlation := NextCorrelation(compiled.backEdges, item.correlation, item.node, source.target);
    var expecting := state.(sourceSets := state.sourceSets[id := group.(expected := group.expected + 1)]);
    hide *;
    PulledIs(compiled, state, iter, value, cursor, expecting, correlation);
    ExpectingFacts(compiled, state, iter, expecting);
    BranchEnqueued(compiled, expecting, source.target, value, id, correlation);
    IterTouched(compiled, Enqueue(expecting, source.target, value, Some(id), group.expected, correlation), iter,
                PullItem(compiled, state, iter, value, cursor).value);
  }

  lemma ExpectingFacts(compiled: Compiled, state: RunState, iter: nat, expecting: RunState)
    requires Conserved(compiled, state) && iter in state.iterSources && state.iterSources[iter].open
    requires state.iterSources[iter].sourceSet in state.sourceSets
    requires var id := state.iterSources[iter].sourceSet;
             expecting == state.(sourceSets :=
               state.sourceSets[id := state.sourceSets[id].(expected := state.sourceSets[id].expected + 1)])
    ensures var id := state.iterSources[iter].sourceSet;
            && Building(compiled, expecting, Some(id), 1, 0) && RoutingSound(expecting)
            && JoinsSound(compiled, View(expecting), None)
            && BranchesOf(expecting, Some(id)) == state.sourceSets[id].expected
            && state.iterSources[iter].target !in compiled.joins
  {
    var id := state.iterSources[iter].sourceSet;
    assert IterAt(compiled, state, state.iterSources[iter]);
    ExpectedIsNext(compiled, state, id);
    ExpectingBuilds(compiled, state, id, expecting);
    hide QueueSound, SetsSound, ItersSound, JoinsSound, Building, View;
    GroupKeepsRouting(state, expecting, id);
  }

  lemma PulledIs(compiled: Compiled, state: RunState, iter: nat, value: string, cursor: Option<string>,
                 expecting: RunState, correlation: CorrelationKey)
    requires PullItem(compiled, state, iter, value, cursor).Ok?
    requires var source := state.iterSources[iter];
             var item, group := state.activations[source.sourceID].activation, state.sourceSets[source.sourceSet];
             && correlation == NextCorrelation(compiled.backEdges, item.correlation, item.node, source.target)
             && expecting == state.(sourceSets :=
                  state.sourceSets[source.sourceSet := group.(expected := group.expected + 1)])
    ensures var source, after := state.iterSources[iter], PullItem(compiled, state, iter, value, cursor).value;
            var enqueued := Enqueue(expecting, source.target, value, Some(source.sourceSet),
              state.sourceSets[source.sourceSet].expected, correlation);
            && enqueued.iterSources == state.iterSources && iter in after.iterSources
            && after == enqueued.(iterSources := state.iterSources[iter := after.iterSources[iter]])
            && after.iterSources[iter]
                 == source.(pulled := after.iterSources[iter].pulled, cursor := after.iterSources[iter].cursor)
  {
  }

  /** The one branch a set is owed is scheduled. */
  lemma BranchEnqueued(compiled: Compiled, state: RunState, target: string, input: string, id: nat,
                       correlation: CorrelationKey)
    requires Building(compiled, state, Some(id), 1, 0) && RoutingSound(state) && JoinsSound(compiled, View(state), None)
    requires target !in compiled.joins
    ensures Conserved(compiled, Enqueue(state, target, input, Some(id), BranchesOf(state, Some(id)), correlation))
  {
    var index := BranchesOf(state, Some(id));
    IdsAreFresh(state);
    EnqueueKeepsRouting(state, target, input, Some(id), index, correlation);
    EnqueueBuilds(compiled, state, target, input, Some(id), correlation, 1, 0);
    Built(compiled, Enqueue(state, target, input, Some(id), index, correlation), Some(id));
    hide QueueSound, SetsSound, ItersSound, RoutingSound, JoinsSound, Enqueue;
    EnqueueKeeps(compiled, state, target, input, Some(id), index, correlation, None);
  }

  lemma EnqueueKeepsRouting(state: RunState, target: string, input: string, id: Option<nat>, branchIndex: int,
                            correlation: CorrelationKey)
    requires RoutingSound(state) && FreshIDs(state)
    ensures RoutingSound(Enqueue(state, target, input, id, branchIndex, correlation))
  {
    var after := Enqueue(state, target, input, id, branchIndex, correlation);
    forall other: nat
      ensures Released(after, other) <==> Released(state, other)
    {
    }
  }

  predicate OnlyTouched(before: IterSource, after: IterSource) {
    after == before.(pulled := after.pulled, cursor := after.cursor, cause := after.cause)
  }

  /** An iterator's position or the cause of its failure has changed, and nothing else. */
  lemma IterTouched(compiled: Compiled, state: RunState, iter: nat, after: RunState)
    requires Conserved(compiled, state) && iter in state.iterSources && iter in after.iterSources
    requires after == state.(iterSources := state.iterSources[iter := after.iterSources[iter]])
    requires OnlyTouched(state.iterSources[iter], after.iterSources[iter])
    ensures Conserved(compiled, after)
  {
    hide QueueSound, JoinsSound, View, SetsSound;
    SameQueue(state, after);
    SameSets(state, after, None, 0);
    SameView(state, after);
    ItersTouched(compiled, state, iter, after);
    hide ItersSound;
    forall id: nat
      ensures Released(after, id) <==> Released(state, id)
    {
    }
  }

  lemma ItersTouched(compiled: Compiled, state: RunState, iter: nat, after: RunState)
    requires ItersSound(compiled, state, None, 0) && iter in state.iterSources && iter in after.iterSources
    requires after == state.(iterSources := state.iterSources[iter := after.iterSources[iter]])
    requires OnlyTouched(state.iterSources[iter], after.iterSources[iter])
    ensures ItersSound(compiled, after, None, 0)
  {
    forall other | other in after.iterSources
      ensures other < after.nextIterSeq && IterAt(compiled, after, after.iterSources[other])
    {
      assert IterAt(compiled, state, state.iterSources[other]);
    }
    forall id | id in after.sourceSets
      ensures OpenIters(after.iterSources, id) == OpenIters(state.iterSources, id)
    {
    }
  }

  lemma ExpectedIsNext(compiled: Compiled, state: RunState, id: nat)
    requires SetsSound(state, None, 0) && id in state.sourceSets
    ensures state.sourceSets[id].expected == |state.sourceSets[id].branches|
  {
    assert SetSound(state.activations, id, state.sourceSets[id], 0);
  }

  lemma ExpectingBuilds(compiled: Compiled, state: RunState, id: nat, expecting: RunState)
    requires Conserved(compiled, state) && id in state.sourceSets && !state.sourceSets[id].decided
    requires !state.sourceSets[id].failed
    requires expecting
      == state.(sourceSets :=
        state.sourceSets[id := state.sourceSets[id].(expected := state.sourceSets[id].expected + 1)])
    ensures Building(compiled, expecting, Some(id), 1, 0) && View(expecting) == View(state)
    ensures BranchesOf(expecting, Some(id)) == state.sourceSets[id].expected
  {
    hide QueueSound, JoinsSound, RoutingSound, SetSound;
    SameQueue(state, expecting);
    OneSetExpectsMore(state, id, expecting);
    hide SetsSound;
    ItersStay(compiled, state, expecting, None, 0);
  }

  lemma OneSetExpectsMore(state: RunState, id: nat, expecting: RunState)
    requires SetsSound(state, None, 0) && id in state.sourceSets
    requires !state.sourceSets[id].decided && !state.sourceSets[id].failed
    requires expecting
      == state.(sourceSets :=
        state.sourceSets[id := state.sourceSets[id].(expected := state.sourceSets[id].expected + 1)])
    ensures SetsSound(expecting, Some(id), 1) && Undecided(expecting.sourceSets[id])
    ensures BranchesOf(expecting, Some(id)) == state.sourceSets[id].expected
  {
    var group := state.sourceSets[id];
    assert SetSound(state.activations, id, group, 0) && |group.branches| == group.expected;
    ExpectsMore(state.activations, id, group);
    hide SetSound;
  }

  lemma ExpectsMore(activations: map<nat, ActivationRecord>, id: nat, group: SourceSet)
    requires SetSound(activations, id, group, 0)
    ensures SetSound(activations, id, group.(expected := group.expected + 1), 1)
  {
    var more := group.(expected := group.expected + 1);
    forall i | 0 <= i < |more.branches|
      ensures BranchAt(activations, id, more, i)
    {
      assert BranchAt(activations, id, group, i);
    }
    forall branch | branch in more.outcomes
      ensures branch in more.branches && OutcomeSound(activations, more, branch)
    {
      assert OutcomeSound(activations, group, branch);
    }
  }

  lemma SoundSet(state: RunState, id: nat)
    requires SetsSound(state, None, 0) && id in state.sourceSets
    ensures SetSound(state.activations, id, state.sourceSets[id], 0)
  {
  }

  lemma ExhaustConserves(compiled: Compiled, state: RunState, iter: nat)
    requires Conserved(compiled, state) && Enabled(compiled, state, Exhausted(iter)) && CloseIter(state, iter).Ok?
    ensures Conserved(compiled, CloseIter(state, iter).value)
  {
    hide IterAt;
    var after, id := CloseIter(state, iter).value, state.iterSources[iter].sourceSet;
    hide QueueSound, JoinsSound, View, SetSound, RoutingSound, ItersSound, SetsSound;
    ClosedIter(state, iter);
    ExhaustedIters(compiled, state, iter);
    hide CloseIter;
    SameQueue(state, after);
    SameView(state, after);
    SoundSet(state, id);
    SourcesCounted(state.activations, id, state.sourceSets[id], after.sourceSets[id]);
    GroupKeepsRouting(state, after, id);
    GroupKeepsSets(state, after, id, None, 0, 0);
  }

  lemma ClosedIter(state: RunState, iter: nat)
    requires CloseIter(state, iter).Ok?
    ensures var id, after := state.iterSources[iter].sourceSet, CloseIter(state, iter).value;
            && id in after.sourceSets
            && after == state.(iterSources := after.iterSources,
                 sourceSets := state.sourceSets[id := after.sourceSets[id]])
            && after.sourceSets[id] == state.sourceSets[id].(openSources := after.sourceSets[id].openSources)
  {
  }

  lemma FailIterConserves(compiled: Compiled, state: RunState, iter: nat, cause: Cause)
    requires Conserved(compiled, state) && Enabled(compiled, state, FailedIter(iter, cause))
    ensures state.iterSources[iter].sourceSet in state.sourceSets && Conserved(compiled, FailIter(state, iter, cause))
  {
    hide QueueSound;
    var id := state.iterSources[iter].sourceSet;
    assert IterAt(compiled, state, state.iterSources[iter]);
    hide Conserved, FailSetFor;
    FailSetForConserves(compiled, state, id, cause);
    IterTouched(compiled, FailSetFor(state, id, cause), iter, FailIter(state, iter, cause));
  }

  lemma FailSetForConserves(compiled: Compiled, state: RunState, id: nat, cause: Cause)
    requires Conserved(compiled, state) && id in state.sourceSets && !state.sourceSets[id].decided
    ensures Conserved(compiled, FailSetFor(state, id, cause))
  {
    hide Conserved;
    var group := state.sourceSets[id].(openSources := 0, failed := true, cause := Some(cause));
    FailWithConserves(compiled, state, id, group);
    var closed := CloseIterSources(state, id);
    assert closed.(sourceSets := closed.sourceSets[id := group]) == FailSetFor(state, id, cause);
  }

  lemma ExhaustedIters(compiled: Compiled, state: RunState, iter: nat)
    requires ItersSound(compiled, state, None, 0) && iter in state.iterSources && state.iterSources[iter].open
    requires CloseIter(state, iter).Ok?
    ensures ItersSound(compiled, CloseIter(state, iter).value, None, 0)
  {
    var after, id := CloseIter(state, iter).value, state.iterSources[iter].sourceSet;
    forall other | other in after.iterSources
      ensures other < after.nextIterSeq && IterAt(compiled, after, after.iterSources[other])
    {
      assert IterAt(compiled, state, state.iterSources[other]);
    }
    forall other | other in after.sourceSets
      ensures after.sourceSets[other].openSources == |OpenIters(after.iterSources, other)|
    {
      if other == id {
        assert OpenIters(after.iterSources, other) == OpenIters(state.iterSources, other) - {iter};
        assert iter in OpenIters(state.iterSources, other);
      } else {
        assert OpenIters(after.iterSources, other) == OpenIters(state.iterSources, other);
      }
    }
  }

  // ----- every run of the scheduler -----

  lemma InitialIsConserved(compiled: Compiled, runID: string, input: string)
    ensures Conserved(compiled, Initial(compiled, runID, input))
  {
    var state := Initial(compiled, runID, input);
    var first := state.queue[0];
    assert QueueIDs(state.queue) == {1};
    forall node
      ensures At(state.scheduled, node) == At(state.completed, node) + QueueCount(state.queue, node)
    {
      CountOne(first, node);
    }
    forall correlation, node
      ensures At2(state.correlations, correlation, node) == |Standing(Places(state.activations), correlation, node)|
    {
      if correlation == first.correlation && node == first.node {
        assert Standing(Places(state.activations), correlation, node) == {1};
      } else {
        assert Standing(Places(state.activations), correlation, node) == {};
      }
    }
  }

  ghost predicate OnlyCompletions(before: RunState, after: RunState) {
    after == before.(nextCompletion := after.nextCompletion)
  }

  lemma CompletionsDoNotMatter(compiled: Compiled, state: RunState, after: RunState)
    requires Conserved(compiled, state) && OnlyCompletions(state, after)
    ensures Conserved(compiled, after)
  {
    hide QueueSound, SetsSound, JoinsSound, View;
    SameQueue(state, after);
    SameSets(state, after, None, 0);
    SameView(state, after);
    SameReleases(state, after);
    hide RoutingSound;
    ItersStay(compiled, state, after, None, 0);
  }

  lemma CompletionsConserve(compiled: Compiled, state: RunState, completion: int)
    requires Conserved(compiled, state)
    ensures Conserved(compiled, state.(nextCompletion := completion))
  {
    hide Conserved;
    assert OnlyCompletions(state, state.(nextCompletion := completion));
    CompletionsDoNotMatter(compiled, state, state.(nextCompletion := completion));
  }

  lemma {:induction false} OnceInMultiset(queue: seq<Activation>, item: Activation)
    requires DistinctQueue(queue)
    ensures multiset(queue)[item] <= 1
  {
    if queue != [] {
      assert queue == [queue[0]] + queue[1..];
      OnceInMultiset(queue[1..], item);
      if item == queue[0] {
        assert item !in queue[1..];
      }
    }
  }

  lemma TwiceInMultiset(queue: seq<Activation>, i: nat, j: nat)
    requires i < j < |queue| && queue[i] == queue[j]
    ensures multiset(queue)[queue[i]] >= 2
  {
    assert queue == queue[..i] + [queue[i]] + queue[i + 1..j] + [queue[j]] + queue[j + 1..];
  }

  lemma PermutedIDs(queue: seq<Activation>, permuted: seq<Activation>)
    requires forall item :: item in permuted <==> item in queue
    ensures QueueIDs(permuted) == QueueIDs(queue)
  {
    forall id | id in QueueIDs(permuted)
      ensures id in QueueIDs(queue)
    {
      var i :| 0 <= i < |permuted| && permuted[i].id == id;
      assert permuted[i] in queue;
    }
    forall id | id in QueueIDs(queue)
      ensures id in QueueIDs(permuted)
    {
      var i :| 0 <= i < |queue| && queue[i].id == id;
      assert queue[i] in permuted;
    }
  }

  lemma Cancels(left: multiset<Activation>, right: multiset<Activation>, item: Activation)
    requires left + multiset{item} == right + multiset{item}
    ensures left == right
  {
    forall other
      ensures left[other] == right[other]
    {
      assert (left + multiset{item})[other] == (right + multiset{item})[other];
    }
  }

  /** Permuted queues hold as many items of each node. */
  lemma {:induction false} PermutedCounts(queue: seq<Activation>, permuted: seq<Activation>, node: string)
    requires multiset(permuted) == multiset(queue)
    ensures QueueCount(permuted, node) == QueueCount(queue, node)
    decreases |queue|
  {
    assert |permuted| == |multiset(permuted)| == |multiset(queue)| == |queue|;
    if queue != [] {
      var first := queue[0];
      assert queue == [first] + queue[1..];
      assert first in multiset(permuted);
      var index :| 0 <= index < |permuted| && permuted[index] == first;
      assert permuted == permuted[..index] + [first] + permuted[index + 1..];
      assert multiset(queue) == multiset{first} + multiset(queue[1..]);
      var left, right := permuted[..index], permuted[index + 1..];
      assert multiset(left + [first] + right) == multiset(left) + multiset{first} + multiset(right);
      assert permuted == left + [first] + right && Without(permuted, index) == left + right;
      assert multiset(left + right) == multiset(left) + multiset(right);
      assert multiset(permuted) == multiset(left) + multiset{first} + multiset(right);
      assert multiset(permuted) == multiset(left + right) + multiset{first};
      Cancels(multiset(left + right), multiset(queue[1..]), first);
      PermutedCounts(queue[1..], Without(permuted, index), node);
      WithoutCounts(permuted, index, node);
    }
  }

  lemma ReorderConserves(compiled: Compiled, state: RunState, queue: seq<Activation>)
    requires Conserved(compiled, state) && multiset(queue) == multiset(state.queue)
    ensures Conserved(compiled, state.(queue := queue))
  {
    forall node
      ensures QueueCount(queue, node) == QueueCount(state.queue, node)
    {
      PermutedCounts(state.queue, queue, node);
    }
    PermutedConserves(compiled, state, queue);
  }

  lemma SameItems(queue: seq<Activation>, permuted: seq<Activation>)
    requires multiset(permuted) == multiset(queue)
    ensures forall item :: item in permuted <==> item in queue
  {
    forall item
      ensures item in permuted <==> item in queue
    {
      assert item in multiset(permuted) <==> item in multiset(queue);
    }
  }

  /** A permuted queue is as sound as the queue was. */
  lemma PermutedIsSound(state: RunState, permuted: seq<Activation>)
    requires QueueSound(state) && multiset(permuted) == multiset(state.queue)
    requires forall node :: QueueCount(permuted, node) == QueueCount(state.queue, node)
    ensures QueueSound(state.(queue := permuted))
  {
    var queue := state.queue;
    SameItems(queue, permuted);
    forall i, j | 0 <= i < j < |permuted|
      ensures permuted[i].id != permuted[j].id
    {
      assert permuted[i] in queue && permuted[j] in queue;
      var left :| 0 <= left < |queue| && queue[left] == permuted[i];
      var right :| 0 <= right < |queue| && queue[right] == permuted[j];
      OnceInMultiset(queue, permuted[i]);
      if permuted[i] == permuted[j] {
        TwiceInMultiset(permuted, i, j);
      }
    }
    PermutedIDs(queue, permuted);
    forall i | 0 <= i < |permuted|
      ensures TrackedAs(state.activations, permuted[i])
    {
      assert permuted[i] in queue;
      var at :| 0 <= at < |queue| && queue[at] == permuted[i];
    }
  }

  lemma PermutedConserves(compiled: Compiled, state: RunState, permuted: seq<Activation>)
    requires Conserved(compiled, state) && multiset(permuted) == multiset(state.queue)
    requires forall node :: QueueCount(permuted, node) == QueueCount(state.queue, node)
    ensures Conserved(compiled, state.(queue := permuted))
  {
    var after := state.(queue := permuted);
    PermutedIsSound(state, permuted);
    assert SetsSound(after, None, 0) && View(after) == View(state);
    hide QueueSound, SetsSound, JoinsSound, View;
    SameReleases(state, after);
    hide RoutingSound;
    ItersStay(compiled, state, after, None, 0);
  }

  /** Every operation the scheduler can perform conserves its state. */
  lemma PerformConserves(compiled: Compiled, state: RunState, operation: Operation)
    requires Wired(compiled) && Conserved(compiled, state) && Enabled(compiled, state, operation)
    requires Perform(compiled, state, operation).Ok?
    ensures Conserved(compiled, Perform(compiled, state, operation).value)
  {
    hide CloseIterSources, View, CloseJoinExpectations, CommitActivation, UnselectedTold, At;
    hide QueueSound, SetsSound, ItersSound, RoutingSound, JoinsSound;
    match operation
    case StartOne(id) => StartConserves(compiled, state, id);
    case CommitStandalone(ran, dispatch) => StandaloneConserves(compiled, state, ran, dispatch);
    case CommitOne(ran) => CommitOneConserves(compiled, state, ran);
    case RetryOne(id, input) => RetryConserves(compiled, state, id, input);
    case InterruptOne(id) => InterruptConserves(compiled, state, id);
    case ResumeAll(resolved) => ResumeConserves(compiled, state, resolved);
    case FireJoin(key, input) => FireConserves(compiled, state, key, input);
    case Decided(id, selected) => DecideConserves(compiled, state, id, selected);
    case FailedSet(id) => FailConserves(compiled, state, id);
    case CancelOne(id) => CancelConserves(compiled, state, id);
    case SupersedeOne(id, branch) => SupersedeConserves(compiled, state, id, branch);
    case CloseOne(id, branch) => CloseConserves(compiled, state, id, branch);
    case ReleaseOne(id, branch, dispatch) =>
      SelectedIsDecided(compiled, state, id, branch);
      ReleaseConserves(compiled, state, id, branch, dispatch);
    case Settled(id) => SettleConserves(compiled, state, id);
    case Pulled(iter, value, cursor) => PullConserves(compiled, state, iter, value, cursor);
    case Exhausted(iter) => ExhaustConserves(compiled, state, iter);
    case FailedIter(iter, cause) => FailIterConserves(compiled, state, iter, cause);
    case Permuted(queue) => ReorderConserves(compiled, state, queue);
    case Numbered(completion) => CompletionsConserve(compiled, state, completion);
  }

  lemma SelectedIsDecided(compiled: Compiled, state: RunState, id: nat, branch: nat)
    requires Conserved(compiled, state) && id in state.sourceSets && branch in state.sourceSets[id].selected
    ensures state.sourceSets[id].decided && branch in state.sourceSets[id].outcomes
  {
    assert SetSound(state.activations, id, state.sourceSets[id], 0);
  }

  lemma SplitOf(state: RunState, id: nat)
    requires QueueSound(state) && SetsSound(state, None, 0) && id in state.sourceSets
    ensures var group := state.sourceSets[id];
            var queued := set branch | branch in group.branches && branch in QueueIDs(state.queue);
            && group.expected == |group.branches|
            && group.outcomes.Keys !! queued && Elements(group.branches) == group.outcomes.Keys + queued
            && (group.settled ==> queued == {})
  {
    var group := state.sourceSets[id];
    assert SetSound(state.activations, id, group, 0);
    forall branch | branch in group.branches
      ensures branch in group.outcomes <==> branch !in QueueIDs(state.queue)
    {
      var at :| 0 <= at < |group.branches| && group.branches[at] == branch;
      assert BranchAt(state.activations, id, group, at);
    }
  }
}
