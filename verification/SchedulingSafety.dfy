/** Every operation of the scheduler conserves what it is to conserve. */
module SchedulingSafety {
  import opened Options
  import opened RunState
  import opened Joins
  import opened Settle
  import opened Conservation
  import opened Scheduling

  // ----- changes of records only -----

  /** Only records have changed, and those not in where they stand. */
  ghost predicate OnlyRecords(before: RunState, after: RunState) {
    && SameStanding(before, after)
    && after == before.(activations := after.activations, nodeVersions := after.nodeVersions)
    && (forall id :: id in before.activations && !Pending(before.activations[id].phase) ==>
          after.activations[id] == before.activations[id])
  }

  lemma RecordsConserve(compiled: Compiled, state: RunState, after: RunState)
    requires Conserved(compiled, state) && OnlyRecords(state, after)
    ensures Conserved(compiled, after)
  {
    hide QueueSound;
    StandingKeepsQueue(state, after);
    SameBranchesKeepSets(state, after, None, 0);
    assert Places(after.activations) == Places(state.activations);
    SameReleases(state, after);
    ItersStay(compiled, state, after, None, 0);
  }

  /** Nothing that the queue's soundness depends on has changed. */
  lemma SameQueue(state: RunState, after: RunState)
    requires QueueSound(state) && after.queue == state.queue && after.activations == state.activations
    requires after.scheduled == state.scheduled && after.completed == state.completed
    requires after.nextActSeq == state.nextActSeq
    ensures QueueSound(after)
  {
  }

  lemma SameSets(state: RunState, after: RunState, building: Option<nat>, owed: nat)
    requires SetsSound(state, building, owed) && after.activations == state.activations
    requires after.sourceSets == state.sourceSets
    requires after.nextSetSeq == state.nextSetSeq
    ensures SetsSound(after, building, owed)
  {
    hide SetSound;
  }

  lemma SameView(state: RunState, after: RunState)
    requires after.activations == state.activations && after.correlations == state.correlations
    requires after.buckets == state.buckets
    requires after.routed == state.routed && after.joined == state.joined
    ensures View(after) == View(state)
  {
  }

  /** How many iterators a set still has open does not matter to its branches. */
  lemma SourcesCounted(activations: map<nat, ActivationRecord>, id: nat, group: SourceSet, after: SourceSet)
    requires SetSound(activations, id, group, 0) && after == group.(openSources := after.openSources)
    ensures SetSound(activations, id, after, 0)
  {
    forall branch | branch in group.outcomes
      ensures OutcomeSound(activations, group, branch)
    {
    }
    GroupReflagged(activations, id, group, after);
  }

  /** Nothing that routing depends on has changed. */
  lemma SameReleases(state: RunState, after: RunState)
    requires RoutingSound(state) && after.routed == state.routed && after.sourceSets == state.sourceSets
    requires forall id :: id in state.activations ==>
               && id in after.activations
               && after.activations[id].activation.sourceSet == state.activations[id].activation.sourceSet
               && (after.activations[id].phase == Completed <==> state.activations[id].phase == Completed)
    requires forall id :: id in after.activations && id !in state.activations ==>
      after.activations[id].phase != Completed
    ensures RoutingSound(after)
  {
    forall id: nat
      ensures Released(after, id) <==> Released(state, id)
    {
    }
  }

  lemma ItersStay(compiled: Compiled, state: RunState, after: RunState, building: Option<nat>, owed: nat)
    requires ItersSound(compiled, state, building, owed) && after.iterSources == state.iterSources
    requires after.nextIterSeq == state.nextIterSeq
    requires forall id :: id in state.activations ==> id in after.activations
    requires after.sourceSets.Keys == state.sourceSets.Keys
    requires forall id :: id in state.sourceSets ==>
               && after.sourceSets[id].openSources == state.sourceSets[id].openSources
               && after.sourceSets[id].decided == state.sourceSets[id].decided
               && after.sourceSets[id].failed == state.sourceSets[id].failed
    ensures ItersSound(compiled, after, building, owed)
  {
    forall iter | iter in after.iterSources
      ensures iter < after.nextIterSeq && IterAt(compiled, after, after.iterSources[iter])
    {
      assert IterAt(compiled, state, state.iterSources[iter]);
    }
  }

  lemma StartConserves(compiled: Compiled, state: RunState, id: nat)
    requires Conserved(compiled, state) && StartActivation(state, id).Ok?
    ensures Conserved(compiled, StartActivation(state, id).value)
  {
    hide Conserved;
    RecordsConserve(compiled, state, StartActivation(state, id).value);
  }

  lemma InterruptConserves(compiled: Compiled, state: RunState, id: nat)
    requires Conserved(compiled, state) && InterruptActivation(state, id).Ok?
    ensures Conserved(compiled, InterruptActivation(state, id).value)
  {
    hide Conserved;
    RecordsConserve(compiled, state, InterruptActivation(state, id).value);
  }

  lemma ResumeConserves(compiled: Compiled, state: RunState, resolved: bool)
    requires Conserved(compiled, state)
    ensures Conserved(compiled, PrepareResume(state, resolved))
  {
    hide DistinctQueue, SetsSound, ItersSound, RoutingSound, JoinsSound, QueueSound;
    var after := PrepareResume(state, resolved);
    StandingKeepsQueue(state, after);
    ResumedBranches(state, resolved);
    assert Places(after.activations) == Places(state.activations);
    SameReleases(state, after);
    ItersStay(compiled, state, after, None, 0);
  }

  lemma ResumedBranches(state: RunState, resolved: bool)
    requires SetsSound(state, None, 0)
    ensures SetsSound(PrepareResume(state, resolved), None, 0)
  {
    var after := PrepareResume(state, resolved);
    forall id | id in after.sourceSets
      ensures SetSound(after.activations, id, after.sourceSets[id], 0)
    {
      var group := state.sourceSets[id];
      forall i | 0 <= i < |group.branches|
        ensures BranchAt(after.activations, id, group, i)
      {
        assert BranchAt(state.activations, id, group, i);
      }
      forall branch | branch in group.outcomes
        ensures OutcomeSound(after.activations, group, branch)
      {
        assert OutcomeSound(state.activations, group, branch);
      }
    }
  }

  /** A retried node goes to the end of the queue with another input. */
  ghost predicate Requeued(state: RunState, id: nat, after: RunState) {
    && id in state.activations && id in after.activations
    && var record, item := after.activations[id], after.activations[id].activation;
       && state.queue != [] && TrackedAs(state.activations, state.queue[0]) && state.queue[0].id == id
       && Pending(state.activations[id].phase) && Pending(record.phase)
       && item == state.queue[0].(input := item.input)
       && after == state.(queue := state.queue[1..] + [item], activations := state.activations[id := record])
  }

  lemma RetriedIsRequeued(state: RunState, id: nat, input: string)
    requires QueueSound(state) && RetryActivation(state, id, input).Ok?
    ensures Requeued(state, id, RetryActivation(state, id, input).value)
  {
    assert TrackedAs(state.activations, state.queue[0]);
  }

  /** It keeps its place in every set and join. */
  lemma RetryConserves(compiled: Compiled, state: RunState, id: nat, input: string)
    requires Conserved(compiled, state) && RetryActivation(state, id, input).Ok?
    ensures Conserved(compiled, RetryActivation(state, id, input).value)
  {
    hide TrackedAs, SetSound, QueueSound, SetsSound, ItersSound, RoutingSound, JoinsSound;
    var after := RetryActivation(state, id, input).value;
    RetriedIsRequeued(state, id, input);
    hide RetryActivation;
    RequeueKeepsQueue(state, after.activations[id].activation, after.activations[id], after);
    SameBranchesKeepSets(state, after, None, 0);
    assert Places(after.activations) == Places(state.activations);
    SameReleases(state, after);
    ItersStay(compiled, state, after, None, 0);
  }

  // ----- flags of one set -----

  predicate IsCommitted(group: SourceSet, branch: nat) {
    branch in group.outcomes && group.outcomes[branch].committed
  }

  /** One set has changed, but none of its branches has become or ceased to be committed. */
  lemma GroupKeepsRouting(state: RunState, after: RunState, id: nat)
    requires RoutingSound(state) && after.routed == state.routed && id in state.sourceSets && id in after.sourceSets
    requires after.sourceSets == state.sourceSets[id := after.sourceSets[id]]
    requires forall branch :: IsCommitted(after.sourceSets[id], branch) <==> IsCommitted(state.sourceSets[id], branch)
    requires after.activations.Keys == state.activations.Keys
    requires forall other :: other in state.activations ==>
               || after.activations[other] == state.activations[other]
               || (state.activations[other].phase != Completed
                 && after.activations[other].activation.sourceSet == Some(id)
                   && !IsCommitted(state.sourceSets[id], other))
    ensures RoutingSound(after)
  {
    forall other: nat
      ensures Released(after, other) <==> Released(state, other)
    {
      assert IsCommitted(after.sourceSets[id], other) <==> IsCommitted(state.sourceSets[id], other);
    }
  }

  /** One set has new flags or phases of outcomes; nothing else has changed. */
  lemma GroupConserves(compiled: Compiled, state: RunState, id: nat, after: RunState)
    requires Conserved(compiled, state) && id in state.sourceSets && id in after.sourceSets
    requires after == state.(sourceSets := state.sourceSets[id := after.sourceSets[id]])
    requires after.sourceSets[id].branches == state.sourceSets[id].branches
    requires SetSound(state.activations, id, after.sourceSets[id], 0)
    requires after.sourceSets[id].openSources == state.sourceSets[id].openSources
    requires after.sourceSets[id].decided == state.sourceSets[id].decided
    requires after.sourceSets[id].failed == state.sourceSets[id].failed
    requires forall branch :: branch in state.sourceSets[id].outcomes || branch in after.sourceSets[id].outcomes ==>
               && branch in state.sourceSets[id].outcomes && branch in after.sourceSets[id].outcomes
               && after.sourceSets[id].outcomes[branch].committed == state.sourceSets[id].outcomes[branch].committed
    ensures Conserved(compiled, after)
  {
    hide QueueSound, JoinsSound, SetSound, OutcomeSound, BranchAt, View;
    SameQueue(state, after);
    SameView(state, after);
    GroupKeepsRouting(state, after, id);
    hide RoutingSound;
    ItersStay(compiled, state, after, None, 0);
    hide ItersSound;
    GroupKeepsSets(state, after, id, None, 0, 0);
  }

  lemma SupersedeConserves(compiled: Compiled, state: RunState, id: nat, branch: nat)
    requires Conserved(compiled, state) && id in state.sourceSets
    requires CompletedButUnselected(state.sourceSets[id], branch)
    ensures Conserved(compiled, Supersede(state, id, branch))
  {
    hide OutcomeSound;
    var group, after := state.sourceSets[id], Supersede(state, id, branch);
    assert SetSound(state.activations, id, group, 0);
    assert OutcomeSound(state.activations, group, branch);
    SupersededIsSound(state.activations, id, group, branch);
    hide SetSound;
    GroupConserves(compiled, state, id, after);
  }

  lemma SupersededIsSound(activations: map<nat, ActivationRecord>, id: nat, group: SourceSet, branch: nat)
    requires SetSound(activations, id, group, 0) && CompletedButUnselected(group, branch)
    ensures SetSound(activations, id,
      group.(outcomes := group.outcomes[branch := group.outcomes[branch].(phase := BranchSuperseded)]), 0)
  {
    forall other | other in group.outcomes
      ensures OutcomeSound(activations, group, other)
    {
    }
    GroupReflagged(activations, id, group,
                   group.(outcomes := group.outcomes[branch := group.outcomes[branch].(phase := BranchSuperseded)]));
  }

  lemma SettleConserves(compiled: Compiled, state: RunState, id: nat)
    requires Conserved(compiled, state) && id in state.sourceSets && state.sourceSets[id].decided
    requires FullyDealt(state.sourceSets[id])
    ensures Conserved(compiled, SettleSet(state, id))
  {
    var group := state.sourceSets[id];
    assert SetSound(state.activations, id, group, 0);
    assert SetSound(state.activations, id, group.(settled := true), 0) by {
      forall branch | branch in group.outcomes
        ensures OutcomeSound(state.activations, group, branch)
      {
      }
      GroupReflagged(state.activations, id, group, group.(settled := true));
    }
    hide SetSound;
    GroupConserves(compiled, state, id, SettleSet(state, id));
  }

  // ----- branches get their outcome -----

  /** A queued branch is done: it leaves the queue with an outcome of its own. */
  ghost predicate GetsOutcome(state: RunState, id: nat, index: nat, after: RunState)
    requires id in state.sourceSets && index < |state.queue|
  {
    var item, group := state.queue[index], state.sourceSets[id];
    && item.sourceSet == Some(id) && item.id in after.activations
    && id in after.sourceSets && item.id in after.sourceSets[id].outcomes
    && var record, outcome := after.activations[item.id], after.sourceSets[id].outcomes[item.id];
       && record.activation == item && !Pending(record.phase)
       && outcome.activation == item && PhaseAgrees(outcome.phase, record.phase) && !outcome.committed
       && after == state.(queue := Without(state.queue, index), nextCompletion := after.nextCompletion,
                          completed := Bump(state.completed, item.node),
                          activations := state.activations[item.id := record],
                          sourceSets := state.sourceSets[id := group.(outcomes := group.outcomes[item.id := outcome])])
  }

  lemma OutcomeConserves(compiled: Compiled, state: RunState, id: nat, index: nat, after: RunState)
    requires Conserved(compiled, state) && id in state.sourceSets && index < |state.queue|
    requires GetsOutcome(state, id, index, after)
    ensures Conserved(compiled, after)
  {
    hide GetsOutcome;
    QueuedIsPending(state, index);
    OutcomeKeepsQueue(state, id, index, after);
    OutcomeKeepsSets(state, id, index, after);
    OutcomeKeepsRouting(state, id, index, after);
    OutcomeKeepsRest(compiled, state, id, index, after);
  }

  lemma OutcomeKeepsRest(compiled: Compiled, state: RunState, id: nat, index: nat, after: RunState)
    requires ItersSound(compiled, state, None, 0) && id in state.sourceSets && index < |state.queue|
    requires GetsOutcome(state, id, index, after)
    requires TrackedAs(state.activations, state.queue[index])
    ensures ItersSound(compiled, after, None, 0) && View(after) == View(state)
  {
    assert Places(after.activations) == Places(state.activations);
    hide ItersSound;
    ItersStay(compiled, state, after, None, 0);
  }

  lemma OutcomeKeepsQueue(state: RunState, id: nat, index: nat, after: RunState)
    requires QueueSound(state) && id in state.sourceSets && index < |state.queue|
    requires GetsOutcome(state, id, index, after)
    ensures QueueSound(after)
  {
    hide QueueSound;
    TakingKeepsQueue(state, index, after.activations[state.queue[index].id], after);
  }

  lemma OutcomeKeepsSets(state: RunState, id: nat, index: nat, after: RunState)
    requires SetsSound(state, None, 0) && id in state.sourceSets && index < |state.queue|
    requires GetsOutcome(state, id, index, after)
    requires TrackedAs(state.activations, state.queue[index]) && Pending(state.activations[state.queue[index].id].phase)
    ensures SetsSound(after, None, 0)
  {
    var item, group := state.queue[index], state.sourceSets[id];
    assert SetSound(state.activations, id, group, 0) && item.id in group.branches;
    OutcomeAdded(state.activations, id, group, after.activations[item.id], after.sourceSets[id].outcomes[item.id]);
    hide SetSound, SetsSound;
    GroupKeepsSets(state, after, id, None, 0, 0);
  }

  lemma OutcomeKeepsRouting(state: RunState, id: nat, index: nat, after: RunState)
    requires RoutingSound(state) && SetsSound(state, None, 0)
    requires id in state.sourceSets && index < |state.queue| && GetsOutcome(state, id, index, after)
    requires TrackedAs(state.activations, state.queue[index]) && Pending(state.activations[state.queue[index].id].phase)
    ensures RoutingSound(after)
  {
    var item, group := state.queue[index], state.sourceSets[id];
    assert !IsCommitted(group, item.id) by {
      assert SetSound(state.activations, id, group, 0);
      assert item.id in group.outcomes ==> OutcomeSound(state.activations, group, item.id);
    }
    hide SetsSound, RoutingSound;
    GroupKeepsRouting(state, after, id);
  }

  /** What is queued is tracked, under its own identifier, and not done. */
  lemma QueuedIsPending(state: RunState, index: nat)
    requires QueueSound(state) && index < |state.queue|
    ensures TrackedAs(state.activations, state.queue[index]) && Pending(state.activations[state.queue[index].id].phase)
  {
    assert TrackedAs(state.activations, state.queue[index]);
    assert state.queue[index].id in QueueIDs(state.queue);
  }

  lemma CanceledGetsOutcome(state: RunState, id: nat, index: nat)
    requires id in state.sourceSets && index < |state.queue| && state.queue[index].sourceSet == Some(id)
    requires TrackedAs(state.activations, state.queue[index]) && CancelAt(state, id, index).Ok?
    ensures GetsOutcome(state, id, index, CancelAt(state, id, index).value)
    ensures CancelAt(state, id, index).value.activations[state.queue[index].id].phase == Canceled
  {
  }

  lemma CancelConserves(compiled: Compiled, state: RunState, id: nat)
    requires Conserved(compiled, state) && id in state.sourceSets && CancelNext(state, id).Ok?
    ensures Conserved(compiled, CancelNext(state, id).value)
  {
    hide CancelAt, GetsOutcome;
    var index := NextUnselected(state.queue, id, state.sourceSets[id].selected);
    if index < |state.queue| {
      QueuedIsPending(state, index);
      hide Conserved;
      CanceledGetsOutcome(state, id, index);
      OutcomeConserves(compiled, state, id, index, CancelNext(state, id).value);
    }
  }

  lemma CommittedGetsOutcome(state: RunState, ran: Ran)
    requires state.queue != [] && ran.activation == state.queue[0] && ran.activation.sourceSet.Some?
    requires TrackedAs(state.activations, state.queue[0]) && CommitBranch(state, ran).Ok?
    ensures ran.activation.sourceSet.value in state.sourceSets
    ensures GetsOutcome(state, ran.activation.sourceSet.value, 0, CommitBranch(state, ran).value)
  {
    assert state.queue[1..] == Without(state.queue, 0);
  }

  lemma CommitOneConserves(compiled: Compiled, state: RunState, ran: Ran)
    requires Conserved(compiled, state) && BranchAtHead(state, ran) && CommitBranch(state, ran).Ok?
    ensures Conserved(compiled, CommitBranch(state, ran).value)
  {
    hide CommitBranch, GetsOutcome;
    QueuedIsPending(state, 0);
    hide Conserved;
    CommittedGetsOutcome(state, ran);
    OutcomeConserves(compiled, state, ran.activation.sourceSet.value, 0, CommitBranch(state, ran).value);
  }

  // ----- deciding and failing a set -----

  lemma ClosedIters(compiled: Compiled, state: RunState, id: nat, group: SourceSet)
    requires ItersSound(compiled, state, None, 0) && id in state.sourceSets && group.openSources == 0
    ensures var closed := CloseIterSources(state, id);
            ItersSound(compiled, closed.(sourceSets := closed.sourceSets[id := group]), None, 0)
  {
    var closed := CloseIterSources(state, id);
    var after := closed.(sourceSets := closed.sourceSets[id := group]);
    forall iter | iter in after.iterSources
      ensures iter < after.nextIterSeq && IterAt(compiled, after, after.iterSources[iter])
    {
      assert IterAt(compiled, state, state.iterSources[iter]);
    }
    forall other | other in after.sourceSets
      ensures after.sourceSets[other].openSources == |OpenIters(after.iterSources, other)|
    {
      if other == id {
        assert OpenIters(after.iterSources, other) == {};
      } else {
        assert OpenIters(after.iterSources, other) == OpenIters(state.iterSources, other);
      }
    }
  }

  /** A set is decided or failed and its iterators are closed. */
  lemma ClosingConserves(compiled: Compiled, state: RunState, id: nat, group: SourceSet)
    requires Conserved(compiled, state) && id in state.sourceSets && SetSound(state.activations, id, group, 0)
    requires group.branches == state.sourceSets[id].branches && group.outcomes == state.sourceSets[id].outcomes
    requires group.openSources == 0
    ensures var closed := CloseIterSources(state, id);
            Conserved(compiled, closed.(sourceSets := closed.sourceSets[id := group]))
  {
    var closed := CloseIterSources(state, id);
    var after := closed.(sourceSets := closed.sourceSets[id := group]);
    hide QueueSound, ItersSound, SetSound, JoinsSound, View;
    SameQueue(state, after);
    ClosedIters(compiled, state, id, group);
    assert after.sourceSets == state.sourceSets[id := group];
    SameView(state, after);
    GroupKeepsRouting(state, after, id);
    hide RoutingSound;
    GroupKeepsSets(state, after, id, None, 0, 0);
  }

  lemma DecideConserves(compiled: Compiled, state: RunState, id: nat, selected: seq<nat>)
    requires Conserved(compiled, state) && Enabled(compiled, state, Decided(id, selected))
    ensures Conserved(compiled, DecideSet(state, id, selected))
  {
    var group := state.sourceSets[id];
    var decided := group.(openSources := 0, decided := true, selected := selected);
    assert SetSound(state.activations, id, group, 0);
    SelectedSucceeded(group, selected);
    assert SetSound(state.activations, id, decided, 0) by {
      forall branch | branch in group.outcomes
        ensures OutcomeSound(state.activations, group, branch)
      {
      }
      GroupReflagged(state.activations, id, group, decided);
    }
    hide SetSound, Successes;
    ClosingConserves(compiled, state, id, decided);
    var closed := CloseIterSources(state, id);
    assert closed.(sourceSets := closed.sourceSets[id := decided]) == DecideSet(state, id, selected);
  }

  /** Whatever is selected has succeeded. */
  lemma SelectedSucceeded(group: SourceSet, selected: seq<nat>)
    requires exists ranking ::
      Successes(group, ranking) && Decide(group, ranking) == Some(Decision(selected, false, true))
    ensures forall branch :: branch in selected ==> branch in Succeeded(group)
  {
    var ranking :| Successes(group, ranking) && Decide(group, ranking) == Some(Decision(selected, false, true));
    forall branch | branch in ranking
      ensures branch in Succeeded(group)
    {
      if group.policy == All {
        BranchOrderSucceeded(group, group.branches);
      } else {
        assert branch in Elements(ranking);
      }
    }
  }

  lemma {:induction false} BranchOrderSucceeded(group: SourceSet, branches: seq<nat>)
    ensures forall branch :: branch in InBranchOrder(group, branches) <==>
      branch in branches && branch in Succeeded(group)
  {
    if branches != [] {
      BranchOrderSucceeded(group, branches[1..]);
    }
  }

  lemma FailConserves(compiled: Compiled, state: RunState, id: nat)
    requires Conserved(compiled, state) && id in state.sourceSets && !state.sourceSets[id].decided
    ensures Conserved(compiled, FailSet(state, id))
  {
    var failed := state.sourceSets[id].(openSources := 0, failed := true);
    FailWithConserves(compiled, state, id, failed);
    var closed := CloseIterSources(state, id);
    assert closed.(sourceSets := closed.sourceSets[id := failed]) == FailSet(state, id);
  }

  lemma FailWithConserves(compiled: Compiled, state: RunState, id: nat, failed: SourceSet)
    requires Conserved(compiled, state) && id in state.sourceSets && !state.sourceSets[id].decided
    requires failed == state.sourceSets[id].(openSources := 0, failed := true, cause := failed.cause)
    ensures var closed := CloseIterSources(state, id);
            Conserved(compiled, closed.(sourceSets := closed.sourceSets[id := failed]))
  {
    var group := state.sourceSets[id];
    assert SetSound(state.activations, id, group, 0);
    assert SetSound(state.activations, id, failed, 0) by {
      forall branch | branch in group.outcomes
        ensures OutcomeSound(state.activations, group, branch)
      {
      }
      GroupReflagged(state.activations, id, group, failed);
    }
    hide SetSound;
    ClosingConserves(compiled, state, id, failed);
  }
}
