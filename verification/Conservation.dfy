/** What the scheduler conserves: identifiers, queue, counters, source sets and the
    history of routing (workflow/workflow.go, activation.go, settle.go). */
module Conservation {
  import opened Options
  import opened Topology
  import opened RunState
  import opened Joins

  // ----- the queue -----

  predicate Pending(phase: Phase) {
    phase == Ready || phase == Running || phase == Interrupted
  }

  function QueueIDs(queue: seq<Activation>): set<nat> {
    set i | 0 <= i < |queue| :: queue[i].id
  }

  function QueueCount(queue: seq<Activation>, node: string): nat {
    if queue == [] then 0 else (if queue[0].node == node then 1 else 0) + QueueCount(queue[1..], node)
  }

  ghost predicate DistinctQueue(queue: seq<Activation>) {
    forall i, j :: 0 <= i < j < |queue| ==> queue[i].id != queue[j].id
  }

  ghost predicate TrackedAs(activations: map<nat, ActivationRecord>, item: Activation) {
    item.id in activations && activations[item.id].activation == item
  }

  /** Every tracked activation that is not done is queued, once, and every activation
      ever scheduled for a node is either completed or queued. */
  ghost predicate QueueSound(state: RunState) {
    && state.nextActSeq > 0 && DistinctQueue(state.queue)
    && (forall i :: 0 <= i < |state.queue| ==> TrackedAs(state.activations, state.queue[i]))
    && (forall id :: id in state.activations ==>
          state.activations[id].activation.id == id && 1 <= id < state.nextActSeq)
    && (forall id :: id in state.activations ==>
          (Pending(state.activations[id].phase) <==> id in QueueIDs(state.queue)))
    && (forall node :: At(state.scheduled, node) == At(state.completed, node) + QueueCount(state.queue, node))
  }

  lemma {:induction false} CountJoined(left: seq<Activation>, right: seq<Activation>, node: string)
    ensures QueueCount(left + right, node) == QueueCount(left, node) + QueueCount(right, node)
  {
    if left == [] {
      assert left + right == right;
    } else {
      assert (left + right)[1..] == left[1..] + right;
      CountJoined(left[1..], right, node);
    }
  }

  lemma CountOne(item: Activation, node: string)
    ensures QueueCount([item], node) == if item.node == node then 1 else 0
  {
    assert [item][1..] == [];
  }

  lemma OneMoreID(queue: seq<Activation>, item: Activation)
    ensures QueueIDs(queue + [item]) == QueueIDs(queue) + {item.id}
  {
    var longer := queue + [item];
    forall id | id in QueueIDs(queue) + {item.id}
      ensures id in QueueIDs(longer)
    {
      if id == item.id {
        assert longer[|queue|].id == id;
      } else {
        var i :| 0 <= i < |queue| && queue[i].id == id;
        assert longer[i].id == id;
      }
    }
  }

  lemma EnqueueKeepsQueue(state: RunState, target: string, input: string, sourceSet: Option<nat>, branchIndex: int,
                          correlation: CorrelationKey)
    requires QueueSound(state)
    ensures QueueSound(Enqueue(state, target, input, sourceSet, branchIndex, correlation))
  {
    var item := Activation(state.nextActSeq, target, input, sourceSet, branchIndex, correlation);
    var after := Enqueue(state, target, input, sourceSet, branchIndex, correlation);
    assert item.id !in state.activations;
    hide QueueSound;
    AddingKeepsQueue(state, item, after);
  }

  lemma AddingKeepsQueue(state: RunState, item: Activation, after: RunState)
    requires QueueSound(state) && item.id == state.nextActSeq && after.queue == state.queue + [item]
    requires after.activations == state.activations[item.id := Tracked(item)] && after.nextActSeq == item.id + 1
    requires after.scheduled == Bump(state.scheduled, item.node) && after.completed == state.completed
    ensures QueueSound(after)
  {
    OneMoreID(state.queue, item);
    forall node
      ensures At(after.scheduled, node) == At(after.completed, node) + QueueCount(after.queue, node)
    {
      CountJoined(state.queue, [item], node);
      CountOne(item, node);
    }
    hide QueueCount;
    forall i | 0 <= i < |after.queue|
      ensures TrackedAs(after.activations, after.queue[i])
    {
      if i < |state.queue| {
        assert TrackedAs(state.activations, state.queue[i]);
      }
    }
  }

  /** The queue without the item at an index. */
  function Without(queue: seq<Activation>, index: nat): seq<Activation>
    requires index < |queue|
  {
    queue[..index] + queue[index + 1..]
  }

  lemma WithoutCounts(queue: seq<Activation>, index: nat, node: string)
    requires index < |queue|
    ensures QueueCount(queue, node)
      == QueueCount(Without(queue, index), node) + (if queue[index].node == node then 1 else 0)
  {
    var before, item, behind := queue[..index], [queue[index]], queue[index + 1..];
    assert queue == before + item + behind && Without(queue, index) == before + behind;
    CountJoined(before + item, behind, node);
    CountJoined(before, item, node);
    CountJoined(before, behind, node);
    CountOne(queue[index], node);
  }

  lemma WithoutIDs(queue: seq<Activation>, index: nat)
    requires index < |queue| && DistinctQueue(queue)
    ensures DistinctQueue(Without(queue, index))
    ensures QueueIDs(Without(queue, index)) == QueueIDs(queue) - {queue[index].id}
  {
    var rest := Without(queue, index);
    forall id | id in QueueIDs(queue) - {queue[index].id}
      ensures id in QueueIDs(rest)
    {
      var i :| 0 <= i < |queue| && queue[i].id == id;
      assert rest[if i < index then i else i - 1] == queue[i];
    }
  }

  /** An activation leaves the queue, is done, and counts as completed. */
  lemma TakingKeepsQueue(state: RunState, index: nat, record: ActivationRecord, after: RunState)
    requires QueueSound(state) && index < |state.queue|
    requires record.activation == state.queue[index] && !Pending(record.phase)
    requires after.queue == Without(state.queue, index)
    requires after.activations == state.activations[state.queue[index].id := record]
    requires after.completed == Bump(state.completed, state.queue[index].node)
    requires after.scheduled == state.scheduled && after.nextActSeq == state.nextActSeq
    ensures QueueSound(after)
  {
    WithoutIDs(state.queue, index);
    forall node
      ensures At(after.scheduled, node) == At(after.completed, node) + QueueCount(after.queue, node)
    {
      WithoutCounts(state.queue, index, node);
    }
    forall i | 0 <= i < |after.queue|
      ensures TrackedAs(after.activations, after.queue[i])
    {
      assert TrackedAs(state.activations, state.queue[if i < index then i else i + 1]);
      assert after.queue[i] == state.queue[if i < index then i else i + 1];
    }
  }

  /** Records may change as long as what they are for and whether they are done do not. */
  ghost predicate SameStanding(before: RunState, after: RunState) {
    && after.activations.Keys == before.activations.Keys
    && (forall id :: id in before.activations ==>
          && after.activations[id].activation == before.activations[id].activation
          && (Pending(after.activations[id].phase) <==> Pending(before.activations[id].phase))
          && (!Pending(before.activations[id].phase) ==> after.activations[id].phase == before.activations[id].phase))
  }

  lemma StandingKeepsQueue(state: RunState, after: RunState)
    requires QueueSound(state) && SameStanding(state, after)
    requires after.queue == state.queue && after.scheduled == state.scheduled && after.completed == state.completed
    requires after.nextActSeq == state.nextActSeq
    ensures QueueSound(after)
  {
  }

  /** A retried activation goes to the end of the queue with its new input. */
  lemma RequeueKeepsQueue(state: RunState, item: Activation, record: ActivationRecord, after: RunState)
    requires QueueSound(state) && state.queue != [] && item.id == state.queue[0].id && item.node == state.queue[0].node
    requires record.activation == item && Pending(record.phase)
    requires after.queue == state.queue[1..] + [item] && after.activations == state.activations[item.id := record]
    requires after.completed == state.completed && after.scheduled == state.scheduled
    requires after.nextActSeq == state.nextActSeq
    ensures QueueSound(after)
  {
    var rest := state.queue[1..];
    assert rest == Without(state.queue, 0);
    WithoutIDs(state.queue, 0);
    OneMoreID(rest, item);
    OneMoreDistinct(rest, item);
    RequeueCounts(state.queue, item);
    RequeueTracked(state, item, record);
    hide QueueCount, Without, DistinctQueue, TrackedAs;
    assert state.queue[0].id in QueueIDs(state.queue);
    hide QueueIDs;
  }

  lemma RequeueTracked(state: RunState, item: Activation, record: ActivationRecord)
    requires QueueSound(state) && state.queue != [] && item.id == state.queue[0].id && record.activation == item
    ensures forall i :: 0 <= i < |state.queue| ==>
      TrackedAs(state.activations[item.id := record], (state.queue[1..] + [item])[i])
  {
    hide QueueCount;
    forall i | 0 <= i < |state.queue|
      ensures TrackedAs(state.activations[item.id := record], (state.queue[1..] + [item])[i])
    {
      if i < |state.queue| - 1 {
        assert TrackedAs(state.activations, state.queue[i + 1]);
      }
    }
  }

  lemma OtherIDs(queue: seq<Activation>, i: nat, id: nat)
    requires i < |queue| && id !in QueueIDs(queue)
    ensures queue[i].id != id
  {
  }

  lemma OneMoreDistinct(queue: seq<Activation>, item: Activation)
    requires DistinctQueue(queue) && item.id !in QueueIDs(queue)
    ensures DistinctQueue(queue + [item])
  {
    forall i | 0 <= i < |queue|
      ensures queue[i].id != item.id
    {
      OtherIDs(queue, i, item.id);
    }
  }

  lemma RequeueCounts(queue: seq<Activation>, item: Activation)
    requires queue != [] && item.node == queue[0].node
    ensures forall node :: QueueCount(queue[1..] + [item], node) == QueueCount(queue, node)
  {
    forall node
      ensures QueueCount(queue[1..] + [item], node) == QueueCount(queue, node)
    {
      CountJoined(queue[1..], [item], node);
      CountOne(item, node);
    }
  }

  // ----- source sets -----

  ghost predicate PhaseAgrees(phase: BranchPhase, record: Phase) {
    match phase
    case BranchCompleted => record == Completed
    case BranchSuperseded => record == Completed
    case BranchSkipped => record == Skipped
    case BranchFailed => record == Failed
    case BranchCanceled => record == Canceled
  }

  /** A set's branches are its activations in order, and split into those with an
      outcome and those still queued; `owed` of them are still to be scheduled. */
  ghost predicate SetSound(activations: map<nat, ActivationRecord>, id: nat, group: SourceSet, owed: nat) {
    && (forall i :: 0 <= i < |group.branches| ==> BranchAt(activations, id, group, i))
    && (forall branch :: branch in group.outcomes ==>
          branch in group.branches && OutcomeSound(activations, group, branch))
    && group.expected == |group.branches| + owed && ValidPolicy(group.policy)
    && (forall branch :: branch in group.selected ==>
          branch in group.outcomes && group.outcomes[branch].phase == BranchCompleted)
    && (group.selected != [] ==> group.decided)
    && !(group.decided && group.failed)
    && (group.settled ==> group.decided && FullyDealt(group))
  }

  /** Every branch has its outcome; the selected ones are committed, and no other one is
      left completed. */
  ghost predicate FullyDealt(group: SourceSet) {
    && group.outcomes.Keys == (set branch | branch in group.branches)
    && (forall branch :: branch in group.outcomes ==>
          if branch in group.selected then group.outcomes[branch].committed
          else group.outcomes[branch].phase != BranchCompleted)
  }

  ghost predicate BranchAt(activations: map<nat, ActivationRecord>, id: nat, group: SourceSet, index: nat)
    requires index < |group.branches|
  {
    var branch := group.branches[index];
    && branch in activations
    && activations[branch].activation.sourceSet == Some(id) && activations[branch].activation.branchIndex == index
    && (branch in group.outcomes <==> !Pending(activations[branch].phase))
  }

  ghost predicate OutcomeSound(activations: map<nat, ActivationRecord>, group: SourceSet, branch: nat)
    requires branch in group.outcomes
  {
    var outcome := group.outcomes[branch];
    && branch in activations && outcome.activation == activations[branch].activation
    && PhaseAgrees(outcome.phase, activations[branch].phase)
    && (outcome.committed ==> group.decided && branch in group.selected)
  }

  /** All sets are sound, `building` still being owed branches, and every activation
      scheduled for a set is one of its branches. */
  ghost predicate SetsSound(state: RunState, building: Option<nat>, owed: nat) {
    && (forall id :: id in state.sourceSets ==>
          id < state.nextSetSeq
            && SetSound(state.activations, id, state.sourceSets[id], if building == Some(id) then owed else 0))
    && (forall id :: id in state.activations && state.activations[id].activation.sourceSet.Some? ==>
          var of := state.activations[id].activation.sourceSet.value;
          of in state.sourceSets && id in state.sourceSets[of].branches)
  }

  /** An activation has been routed exactly if it completed and, for a branch, was
      selected and committed; nothing is routed twice. */
  ghost predicate RoutingSound(state: RunState) {
    && (forall i, j :: 0 <= i < j < |state.routed| ==> state.routed[i] != state.routed[j])
    && (forall id :: id in state.routed <==> Released(state, id))
  }

  ghost predicate Released(state: RunState, id: nat) {
    && id in state.activations && state.activations[id].phase == Completed
    && (state.activations[id].activation.sourceSet.Some? ==>
          var of := state.activations[id].activation.sourceSet.value;
          of in state.sourceSets && id in state.sourceSets[of].outcomes && state.sourceSets[of].outcomes[id].committed)
  }

  // ----- iterators -----

  function OpenIters(iterSources: map<nat, IterSource>, id: nat): set<nat> {
    set iter | iter in iterSources && iterSources[iter].open && iterSources[iter].sourceSet == id
  }

  /** Open iterators feed sets nobody has decided; a set knows how many it has, of
      which `owed` are still to be opened. */
  ghost predicate ItersSound(compiled: Compiled, state: RunState, building: Option<nat>, owed: nat) {
    && state.nextIterSeq > 0
    && (forall iter :: iter in state.iterSources ==>
          iter < state.nextIterSeq && IterAt(compiled, state, state.iterSources[iter]))
    && (forall id :: id in state.sourceSets ==>
          state.sourceSets[id].openSources
            == |OpenIters(state.iterSources, id)| + (if building == Some(id) then owed else 0))
  }

  ghost predicate IterAt(compiled: Compiled, state: RunState, source: IterSource) {
    && source.sourceID in state.activations && source.sourceSet in state.sourceSets
    && (source.open ==>
          && source.target !in compiled.joins
          && !state.sourceSets[source.sourceSet].decided && !state.sourceSets[source.sourceSet].failed)
  }

  /** What holds of the scheduler between any two of its operations. */
  ghost predicate Conserved(compiled: Compiled, state: RunState) {
    && QueueSound(state) && SetsSound(state, None, 0) && ItersSound(compiled, state, None, 0)
    && RoutingSound(state) && JoinsSound(compiled, View(state), None)
  }

  // ----- what changes keep source sets sound -----

  /** Records may change as long as no branch moves and none gets or loses its outcome. */
  ghost predicate SameBranches(before: map<nat, ActivationRecord>, after: map<nat, ActivationRecord>) {
    && (forall id :: id in before ==>
          && id in after && PlaceOf(after[id].activation) == PlaceOf(before[id].activation)
          && (before[id].activation.sourceSet.Some? ==> (Pending(after[id].phase) <==> Pending(before[id].phase)))
          && (!Pending(before[id].phase) ==> after[id] == before[id]))
  }

  lemma SameBranchesKeepSet(before: map<nat, ActivationRecord>, after: map<nat, ActivationRecord>, id: nat,
                            group: SourceSet, owed: nat)
    requires SetSound(before, id, group, owed) && SameBranches(before, after)
    ensures SetSound(after, id, group, owed)
  {
    forall i | 0 <= i < |group.branches|
      ensures BranchAt(after, id, group, i)
    {
      assert BranchAt(before, id, group, i);
    }
    forall branch | branch in group.outcomes
      ensures OutcomeSound(after, group, branch)
    {
      assert OutcomeSound(before, group, branch);
      var i :| 0 <= i < |group.branches| && group.branches[i] == branch;
      assert BranchAt(before, id, group, i);
    }
  }

  lemma SameBranchesKeepSets(state: RunState, after: RunState, building: Option<nat>, owed: nat)
    requires SetsSound(state, building, owed) && SameBranches(state.activations, after.activations)
    requires after.sourceSets == state.sourceSets && after.nextSetSeq >= state.nextSetSeq
    requires forall id :: id in after.activations && id !in state.activations ==>
      after.activations[id].activation.sourceSet.None?
    ensures SetsSound(after, building, owed)
  {
    forall id | id in after.sourceSets
      ensures SetSound(after.activations, id, after.sourceSets[id], if building == Some(id) then owed else 0)
    {
      SameBranchesKeepSet(state.activations, after.activations, id, state.sourceSets[id],
                          if building == Some(id) then owed else 0);
    }
  }

  /** One set has changed, and it is still sound with the same branches. */
  lemma GroupKeepsSets(state: RunState, after: RunState, id: nat, building: Option<nat>, owed: nat, remaining: nat)
    requires SetsSound(state, building, owed) && id in state.sourceSets && id in after.sourceSets
    requires building == Some(id) || (building.None? && remaining == 0)
    requires after.sourceSets == state.sourceSets[id := after.sourceSets[id]] && after.nextSetSeq == state.nextSetSeq
    requires SetSound(after.activations, id, after.sourceSets[id], remaining)
    requires forall branch :: branch in state.sourceSets[id].branches ==> branch in after.sourceSets[id].branches
    requires forall other :: other in state.activations && state.activations[other].activation.sourceSet != Some(id) ==>
               other in after.activations && after.activations[other] == state.activations[other]
    requires forall other :: other in state.activations ==>
               other in after.activations
                 && after.activations[other].activation.sourceSet == state.activations[other].activation.sourceSet
    requires forall other :: other in after.activations && other !in state.activations ==>
               after.activations[other].activation.sourceSet == Some(id) && other in after.sourceSets[id].branches
    ensures SetsSound(after, building, remaining)
  {
    forall other | other in after.sourceSets
      ensures SetSound(after.activations, other, after.sourceSets[other],
        if building == Some(other) then remaining else 0)
    {
      if other != id {
        OtherSetStays(state.activations, after.activations, id, other, state.sourceSets[other]);
      }
    }
  }

  lemma OtherSetStays(before: map<nat, ActivationRecord>, after: map<nat, ActivationRecord>, changed: nat, id: nat,
                      group: SourceSet)
    requires SetSound(before, id, group, 0) && id != changed
    requires forall other :: other in before && before[other].activation.sourceSet != Some(changed) ==>
      other in after && after[other] == before[other]
    ensures SetSound(after, id, group, 0)
  {
    forall i | 0 <= i < |group.branches|
      ensures BranchAt(after, id, group, i)
    {
      assert BranchAt(before, id, group, i);
    }
    forall branch | branch in group.outcomes
      ensures OutcomeSound(after, group, branch)
    {
      assert OutcomeSound(before, group, branch);
      var i :| 0 <= i < |group.branches| && group.branches[i] == branch;
      assert BranchAt(before, id, group, i);
    }
  }

  /** A branch is added to a set that is still owed one. */
  lemma BranchAdded(before: map<nat, ActivationRecord>, after: map<nat, ActivationRecord>, id: nat, group: SourceSet,
                    item: Activation, owed: nat)
    requires SetSound(before, id, group, owed) && owed > 0 && !group.settled
    requires item.id !in before && after == before[item.id := Tracked(item)]
    requires item.sourceSet == Some(id) && item.branchIndex == |group.branches|
    ensures SetSound(after, id, group.(branches := group.branches + [item.id]), owed - 1)
  {
    var grown := group.(branches := group.branches + [item.id]);
    assert item.id in group.outcomes ==> OutcomeSound(before, group, item.id);
    forall i | 0 <= i < |grown.branches|
      ensures BranchAt(after, id, grown, i)
    {
      if i < |group.branches| {
        assert BranchAt(before, id, group, i);
      }
    }
    forall branch | branch in grown.outcomes
      ensures branch in grown.branches && OutcomeSound(after, grown, branch)
    {
      assert OutcomeSound(before, group, branch);
    }
  }

  /** A pending branch gets its outcome. */
  lemma OutcomeAdded(before: map<nat, ActivationRecord>, id: nat, group: SourceSet, record: ActivationRecord,
                     outcome: BranchOutcome)
    requires SetSound(before, id, group, 0) && record.activation.id in before && record.activation.id in group.branches
    requires PlaceOf(record.activation) == PlaceOf(before[record.activation.id].activation)
    requires Pending(before[record.activation.id].phase) && !Pending(record.phase)
    requires outcome.activation == record.activation && PhaseAgrees(outcome.phase, record.phase) && !outcome.committed
    ensures SetSound(before[record.activation.id := record], id,
      group.(outcomes := group.outcomes[record.activation.id := outcome]), 0)
  {
    var branch, after := record.activation.id, before[record.activation.id := record];
    var more := group.(outcomes := group.outcomes[branch := outcome]);
    var at :| 0 <= at < |group.branches| && group.branches[at] == branch;
    assert BranchAt(before, id, group, at);
    forall i | 0 <= i < |more.branches|
      ensures BranchAt(after, id, more, i)
    {
      assert BranchAt(before, id, group, i);
    }
    forall other | other in more.outcomes
      ensures other in more.branches && OutcomeSound(after, more, other)
    {
      if other != branch {
        assert OutcomeSound(before, group, other);
      }
    }
    assert branch !in group.outcomes;
  }

  /** A set may be decided, failed, settled, and its outcomes superseded or committed. */
  lemma GroupReflagged(activations: map<nat, ActivationRecord>, id: nat, group: SourceSet, after: SourceSet)
    requires SetSound(activations, id, group, 0)
    requires after.branches == group.branches && after.expected == group.expected && after.policy == group.policy
    requires after.outcomes.Keys == group.outcomes.Keys
    requires forall branch :: branch in group.outcomes ==>
               && after.outcomes[branch].activation == group.outcomes[branch].activation
               && (after.outcomes[branch].phase == group.outcomes[branch].phase
                   || (group.outcomes[branch].phase == BranchCompleted
                     && after.outcomes[branch].phase == BranchSuperseded))
               && (after.outcomes[branch].committed ==> after.decided && branch in after.selected)
    requires forall branch :: branch in after.selected ==>
      branch in after.outcomes && after.outcomes[branch].phase == BranchCompleted
    requires after.selected != [] ==> after.decided
    requires !(after.decided && after.failed)
    requires after.settled ==> after.decided && FullyDealt(after)
    ensures SetSound(activations, id, after, 0)
  {
    forall i | 0 <= i < |after.branches|
      ensures BranchAt(activations, id, after, i)
    {
      assert BranchAt(activations, id, group, i);
    }
    forall branch | branch in after.outcomes
      ensures branch in after.branches && OutcomeSound(activations, after, branch)
    {
      assert OutcomeSound(activations, group, branch);
    }
  }
}
