/** Releasing a decided source set, and doing so again after a crash anywhere in
    between (workflow/settle.go). */
module Release {
  import opened Options
  import opened Topology
  import opened RunState
  import opened Joins
  import opened Settle
  import opened Conservation
  import opened Scheduling
  import opened SchedulingSafety
  import opened RoutingSafety
  import opened SchedulingLaws
  import opened OpenSets
  import opened Announcements

  // ----- the queue while a set is released -----

  /** The queued items of other sets and of none, in order. */
  function Unrelated(queue: seq<Activation>, id: nat): seq<Activation> {
    if queue == [] then []
    else (if queue[0].sourceSet != Some(id) then [queue[0]] else []) + Unrelated(queue[1..], id)
  }

  lemma {:induction false} UnrelatedJoined(left: seq<Activation>, right: seq<Activation>, id: nat)
    ensures Unrelated(left + right, id) == Unrelated(left, id) + Unrelated(right, id)
  {
    if left == [] {
      assert left + right == right;
    } else {
      assert (left + right)[1..] == left[1..] + right;
      UnrelatedJoined(left[1..], right, id);
    }
  }

  lemma UnrelatedWithout(queue: seq<Activation>, index: nat, id: nat)
    requires index < |queue| && queue[index].sourceSet == Some(id)
    ensures Unrelated(Without(queue, index), id) == Unrelated(queue, id)
  {
    var head, item, tail := queue[..index], [queue[index]], queue[index + 1..];
    assert item[1..] == [] && Unrelated(item, id) == [];
    hide Unrelated;
    assert queue == head + (item + tail);
    UnrelatedJoined(item, tail, id);
    UnrelatedJoined(head, item + tail, id);
    UnrelatedJoined(head, tail, id);
  }

  lemma {:induction false} NothingRelated(queue: seq<Activation>, id: nat)
    requires forall i :: 0 <= i < |queue| ==> queue[i].sourceSet != Some(id)
    ensures Unrelated(queue, id) == queue
  {
    if queue != [] {
      NothingRelated(queue[1..], id);
    }
  }

  // ----- what holds of a set while it is released -----

  /** The other sets there were are as they were, and new ones are unstarted. */
  ghost predicate OthersStay(before: RunState, after: RunState, id: nat) {
    && (forall other :: other in before.sourceSets && other != id ==>
          other in after.sourceSets && after.sourceSets[other] == before.sourceSets[other])
    && OnlyUnstarted(before, after)
  }

  /** All but the outcomes of one set is fixed, and no outcome is lost. */
  ghost predicate Progresses(before: RunState, after: RunState, id: nat) {
    && id in before.sourceSets && id in after.sourceSets && OthersStay(before, after, id)
    && after.sourceSets[id] == before.sourceSets[id].(outcomes := after.sourceSets[id].outcomes)
    && (forall branch :: branch in before.sourceSets[id].outcomes ==>
          branch in after.sourceSets[id].outcomes
          && after.sourceSets[id].outcomes[branch].activation == before.sourceSets[id].outcomes[branch].activation)
  }

  lemma ProgressesOn(first: RunState, second: RunState, third: RunState, id: nat)
    requires Progresses(first, second, id) && Progresses(second, third, id)
    ensures Progresses(first, third, id)
  {
  }

  lemma BucketsProgress(first: RunState, second: RunState, third: RunState, id: nat)
    requires Progresses(first, second, id) && third == second.(buckets := third.buckets)
    ensures Progresses(first, third, id)
  {
  }

  /** The branches to be canceled have not been started. */
  ghost predicate Releasable(state: RunState, id: nat)
    requires id in state.sourceSets
  {
    forall i :: 0 <= i < |state.queue| && state.queue[i].sourceSet == Some(id) ==>
      state.queue[i].id in state.sourceSets[id].selected || ReadyAt(state, i)
  }

  ghost predicate ReadyAt(state: RunState, index: nat)
    requires index < |state.queue|
  {
    state.queue[index].id in state.activations && state.activations[state.queue[index].id].phase == Ready
  }

  /** A state from which a resumed run goes on releasing the set, or failing it. */
  ghost predicate Underway(state: RunState, id: nat, selected: seq<nat>, failed: bool) {
    && id in state.sourceSets
    && state.sourceSets[id].decided == !failed && state.sourceSets[id].failed == failed && !state.sourceSets[id].settled
    && state.sourceSets[id].selected == selected
  }

  /** The end of a release. */
  ghost predicate ReleasedFully(state: RunState, id: nat) {
    && id in state.sourceSets
    && var group := state.sourceSets[id];
       && group.decided && group.settled && !group.failed
       && group.outcomes.Keys == Elements(group.branches)
       && (forall branch :: branch in group.outcomes ==> FullyReleased(state, group, branch))
       && (forall i :: 0 <= i < |state.queue| ==> state.queue[i].sourceSet != Some(id))
  }

  /** The end of failing a set: nothing of it is queued, routed or left completed. */
  ghost predicate FailedFully(state: RunState, id: nat) {
    && id in state.sourceSets
    && var group := state.sourceSets[id];
       && group.failed && !group.decided && !group.settled && group.selected == []
       && group.outcomes.Keys == Elements(group.branches)
       && (forall branch :: branch in group.outcomes ==> FullyReleased(state, group, branch))
       && (forall i :: 0 <= i < |state.queue| ==> state.queue[i].sourceSet != Some(id))
  }

  lemma UnselectedStillTold(compiled: Compiled, before: RunState, after: RunState, id: nat)
    requires id in before.sourceSets && UnselectedTold(compiled, before, id) && StillTold(compiled, before, after)
    requires Progresses(before, after, id)
    ensures UnselectedTold(compiled, after, id)
  {
    var group := before.sourceSets[id];
    forall branch | branch in group.branches && branch !in group.selected
      ensures AllTold(compiled, after, after.sourceSets[id].outcomes[branch].activation)
    {
      StillAllTold(compiled, before, after, group.outcomes[branch].activation);
    }
  }

  ghost predicate FullyReleased(state: RunState, group: SourceSet, branch: nat)
    requires branch in group.outcomes
  {
    var outcome := group.outcomes[branch];
    && branch in state.activations && !Pending(state.activations[branch].phase)
    && (if branch in group.selected then outcome.phase == BranchCompleted && outcome.committed && branch in state.routed
        else outcome.phase != BranchCompleted && !outcome.committed && branch !in state.routed)
  }

  // ----- canceling -----

  lemma CancelNeedsReady(state: RunState, id: nat, index: nat)
    requires id in state.sourceSets && index < |state.queue| && TrackedAs(state.activations, state.queue[index])
    ensures CancelAt(state, id, index).Ok? <==> ReadyAt(state, index)
  {
  }

  lemma CancelFacts(compiled: Compiled, state: RunState, id: nat, index: nat)
    requires Conserved(compiled, state) && id in state.sourceSets
    requires index == NextUnselected(state.queue, id, state.sourceSets[id].selected) < |state.queue|
    ensures CancelNext(state, id) == CancelAt(state, id, index) && state.queue[index].sourceSet == Some(id)
    ensures TrackedAs(state.activations, state.queue[index]) && Pending(state.activations[state.queue[index].id].phase)
    ensures state.queue[index].id !in state.sourceSets[id].outcomes
  {
    QueuedIsPending(state, index);
    hide CancelAt;
    assert state.queue[index].sourceSet == Some(id);
    QueuedBranch(compiled, state, index);
  }

  /** Canceling one queued branch. */
  lemma CancelWorks(compiled: Compiled, state: RunState, id: nat, index: nat)
    requires Conserved(compiled, state) && Releasing(state, id)
    requires index == NextUnselected(state.queue, id, state.sourceSets[id].selected) < |state.queue|
    ensures CancelNext(state, id) == CancelAt(state, id, index)
    ensures (CancelAt(state, id, index).Ok? <==> ReadyAt(state, index))
    ensures CancelAt(state, id, index).Ok? ==>
              var after := CancelAt(state, id, index).value;
              && Conserved(compiled, after) && Progresses(state, after, id)
              && Unrelated(after.queue, id) == Unrelated(state.queue, id) && |after.queue| < |state.queue|
              && Settles(state, after) && (Releasable(after, id) <==> Releasable(state, id))
  {
    hide Conserved, CancelAt, Settles, Progresses, NextUnselected, Releasable, ReadyAt;
    CancelFacts(compiled, state, id, index);
    CancelNeedsReady(state, id, index);
    if CancelAt(state, id, index).Ok? {
      CancelConserves(compiled, state, id);
      CanceledGetsOutcome(state, id, index);
      var after := CancelAt(state, id, index).value;
      hide CancelNext, Releasable;
      CanceledStaysReleasable(compiled, state, id, index, after);
      CanceledProgresses(state, id, index, after);
    }
  }

  lemma CanceledProgresses(state: RunState, id: nat, index: nat, after: RunState)
    requires id in state.sourceSets && index < |state.queue| && GetsOutcome(state, id, index, after)
    requires TrackedAs(state.activations, state.queue[index]) && Pending(state.activations[state.queue[index].id].phase)
    requires after.activations[state.queue[index].id].phase == Canceled
    requires state.queue[index].id !in state.sourceSets[id].outcomes
    ensures Progresses(state, after, id) && Unrelated(after.queue, id) == Unrelated(state.queue, id)
    ensures |after.queue| < |state.queue|
    ensures Settles(state, after)
  {
    UnrelatedWithout(state.queue, index, id);
    CalmsQuietly(state, after);
  }

  lemma CanceledStaysReleasable(compiled: Compiled, state: RunState, id: nat, index: nat, after: RunState)
    requires Conserved(compiled, state) && id in state.sourceSets && index < |state.queue|
    requires GetsOutcome(state, id, index, after) && ReadyAt(state, index)
    ensures Releasable(after, id) <==> Releasable(state, id)
  {
    hide SetsSound, ItersSound, RoutingSound, JoinsSound;
    forall i | 0 <= i < |after.queue|
      ensures ReadyAt(after, i) <==> ReadyAt(state, if i < index then i else i + 1)
    {
      assert after.queue[i] == state.queue[if i < index then i else i + 1];
      assert after.queue[i].id != state.queue[index].id;
    }
    if Releasable(after, id) {
      forall i | 0 <= i < |state.queue| && state.queue[i].sourceSet == Some(id)
        && state.queue[i].id !in state.sourceSets[id].selected
        ensures ReadyAt(state, i)
      {
        if i != index {
          var j := if i < index then i else i - 1;
          assert after.queue[j] == state.queue[i];
          assert ReadyAt(after, j);
        }
      }
    }
  }

  // ----- the other steps -----

  /** Records either stay or are done; what is new has not run yet. */
  ghost predicate Settles(before: RunState, after: RunState) {
    && (forall id :: id in before.activations ==> SettlesOne(before, after, id))
    && (forall id :: id in after.activations && id !in before.activations ==> IdleOrDone(after.activations[id].phase))
    && Calms(before, after)
  }

  /** The activations that are completed and still to be routed. */
  function Unrouted(state: RunState): set<nat> {
    set id | id in state.activations && state.activations[id].phase == Completed && id !in state.routed
  }

  function OpenSources(state: RunState): set<nat> {
    set iter | iter in state.iterSources && state.iterSources[iter].open
  }

  /** Iterators are opened only by routing something that was still to be routed. */
  ghost predicate Calms(before: RunState, after: RunState) {
    Unrouted(after) < Unrouted(before)
      || (Unrouted(after) == Unrouted(before) && OpenSources(after) <= OpenSources(before))
  }

  /** Nothing was routed and nothing new was completed. */
  lemma CalmsQuietly(before: RunState, after: RunState)
    requires after.routed == before.routed && OpenSources(after) <= OpenSources(before)
    requires forall id :: id in after.activations && after.activations[id].phase == Completed ==>
      id in before.activations && before.activations[id].phase == Completed
    requires forall id :: id in before.activations && before.activations[id].phase == Completed ==>
      id in after.activations && after.activations[id].phase == Completed
    ensures Calms(before, after)
  {
    assert Unrouted(after) == Unrouted(before);
  }

  /** One completed activation was routed and nothing new was completed. */
  lemma CalmsByRouting(before: RunState, after: RunState, id: nat)
    requires after.routed == before.routed + [id] && id !in before.routed && id in before.activations
    requires before.activations[id].phase == Completed
    requires forall other :: other in after.activations && after.activations[other].phase == Completed ==>
               other in before.activations && before.activations[other].phase == Completed
    ensures Calms(before, after)
  {
    assert id in Unrouted(before) && id !in Unrouted(after);
    assert Unrouted(after) <= Unrouted(before);
  }

  predicate IdleOrDone(phase: Phase) {
    phase == Ready || !Pending(phase)
  }

  ghost predicate SettlesOne(before: RunState, after: RunState, id: nat)
    requires id in before.activations
  {
    id in after.activations
      && (after.activations[id] == before.activations[id] || !Pending(after.activations[id].phase))
  }

  lemma SettlesOn(first: RunState, second: RunState, third: RunState)
    requires Settles(first, second) && Settles(second, third)
    ensures Settles(first, third)
  {
    forall id | id in first.activations
      ensures SettlesOne(first, third, id)
    {
      assert SettlesOne(first, second, id) && SettlesOne(second, third, id);
    }
    forall id | id in third.activations && id !in first.activations
      ensures IdleOrDone(third.activations[id].phase)
    {
      if id in second.activations {
        assert SettlesOne(second, third, id);
      }
    }
  }

  /** Fixing the selection. */
  lemma DecideWorks(compiled: Compiled, state: RunState, id: nat, selected: seq<nat>)
    requires Conserved(compiled, state) && id in state.sourceSets && !state.sourceSets[id].settled
    requires !state.sourceSets[id].failed
    requires state.sourceSets[id].decided || Enabled(compiled, state, Decided(id, selected))
    ensures var after := DecideSet(state, id, selected);
            && Conserved(compiled, after) && Settles(state, after) && after.queue == state.queue
            && Underway(after, id, if state.sourceSets[id].decided then state.sourceSets[id].selected
                 else selected, false)
            && OthersStay(state, after, id)
            && after.sourceSets[id].outcomes == state.sourceSets[id].outcomes
            && after.sourceSets[id].branches == state.sourceSets[id].branches
  {
    hide QueueSound, SetsSound, ItersSound, RoutingSound, JoinsSound, Settles, OthersStay;
    DecidingSettles(state, id, selected);
    DecidingIs(state, id, selected);
    OneSetChanges(state, DecideSet(state, id, selected), id);
    if state.sourceSets[id].decided {
      ReclosedConserves(compiled, state, id);
    } else {
      DecideConserves(compiled, state, id, selected);
    }
    hide DecideSet;
  }

  lemma DecidingIs(state: RunState, id: nat, selected: seq<nat>)
    requires id in state.sourceSets
    ensures var group, after := state.sourceSets[id], DecideSet(state, id, selected);
            && after.queue == state.queue && id in after.sourceSets
            && after.sourceSets == state.sourceSets[id := after.sourceSets[id]]
            && after.sourceSets[id]
                 == group.(openSources := 0, decided := true, selected := if group.decided then group.selected
                   else selected)
            && (group.decided ==> after == CloseIterSources(state, id))
  {
    var group, closed := state.sourceSets[id], CloseIterSources(state, id);
    if group.decided {
      assert closed.sourceSets[id] == group.(openSources := 0, decided := true);
    }
  }

  lemma OneSetChanges(before: RunState, after: RunState, id: nat)
    requires id in before.sourceSets && id in after.sourceSets
    requires after.sourceSets == before.sourceSets[id := after.sourceSets[id]]
    ensures OthersStay(before, after, id)
  {
    hide Unstarted;
  }

  lemma DecidingSettles(state: RunState, id: nat, selected: seq<nat>)
    requires id in state.sourceSets
    ensures Settles(state, DecideSet(state, id, selected))
  {
    var after := DecideSet(state, id, selected);
    forall other | other in state.activations
      ensures SettlesOne(state, after, other)
    {
    }
    CalmsQuietly(state, after);
  }

  lemma ReclosedConserves(compiled: Compiled, state: RunState, id: nat)
    requires Conserved(compiled, state) && id in state.sourceSets && state.sourceSets[id].decided
    ensures Conserved(compiled, CloseIterSources(state, id))
  {
    var group := state.sourceSets[id].(openSources := 0);
    var closed := CloseIterSources(state, id);
    hide SetSound, QueueSound, ItersSound, RoutingSound, JoinsSound;
    SourcesCounted(state.activations, id, state.sourceSets[id], group);
    ClosingConserves(compiled, state, id, group);
    hide Conserved, ClosedFor;
    assert closed.sourceSets[id := group] == closed.sourceSets;
  }

  /** Superseding one completed branch that was not selected. */
  lemma SupersedeWorks(compiled: Compiled, state: RunState, id: nat, branch: nat)
    requires Conserved(compiled, state) && id in state.sourceSets
    requires CompletedButUnselected(state.sourceSets[id], branch)
    ensures var after := Supersede(state, id, branch);
            && Conserved(compiled, after) && Progresses(state, after, id) && Settles(state, after)
            && after.queue == state.queue
            && after.sourceSets[id].outcomes.Keys == state.sourceSets[id].outcomes.Keys
            && !CompletedButUnselected(after.sourceSets[id], branch)
            && (forall other :: CompletedButUnselected(after.sourceSets[id], other) ==>
                  CompletedButUnselected(state.sourceSets[id], other))
  {
    hide Conserved;
    SupersedeConserves(compiled, state, id, branch);
  }

  /** Closing what joins expect of a branch that was not selected: it never fails. */
  lemma CloseWorks(compiled: Compiled, state: RunState, id: nat, branch: nat)
    requires Conserved(compiled, state) && Enabled(compiled, state, CloseOne(id, branch))
    ensures var closed :=
      CloseJoinExpectations(compiled, state, state.sourceSets[id].outcomes[branch].activation, map[]);
            && closed.Ok? && Conserved(compiled, closed.value)
            && closed.value == state.(buckets := closed.value.buckets)
            && AllTold(compiled, closed.value, state.sourceSets[id].outcomes[branch].activation)
            && StillTold(compiled, state, closed.value)
  {
    hide Conserved, CloseAll, AllTold, StillTold;
    CloseConserves(compiled, state, id, branch);
    var source := state.sourceSets[id].outcomes[branch].activation;
    CloseTells(compiled, state, source);
    ClosingOnlyBuckets(compiled, state, source, Targets(compiled.edges, source.node), map[]);
  }

  /** Releasing one selected branch. */
  lemma ReleaseWorks(compiled: Compiled, state: RunState, id: nat, branch: nat, dispatch: Dispatch)
    requires Wired(compiled) && Conserved(compiled, state) && id in state.sourceSets
    requires branch in state.sourceSets[id].outcomes
    requires branch in state.sourceSets[id].selected && state.sourceSets[id].decided
    requires ReleaseBranch(compiled, state, id, branch, dispatch).Ok?
    ensures var after, group := ReleaseBranch(compiled, state, id, branch, dispatch).value, state.sourceSets[id];
            && Conserved(compiled, after) && Settles(state, after) && state.queue <= after.queue
            && Progresses(state, after, id) && StillTold(compiled, state, after)
            && after.sourceSets[id]
                 == group.(outcomes := group.outcomes[branch := group.outcomes[branch].(committed := true)])
  {
    hide QueueSound, SetsSound, ItersSound, RoutingSound, JoinsSound, StillTold, Settles, Progresses;
    ReleaseStillTold(compiled, state, id, branch, dispatch);
    ReleaseConserves(compiled, state, id, branch, dispatch);
    var outcome := state.sourceSets[id].outcomes[branch];
    if outcome.committed {
      NothingProgresses(state, id);
      assert state.sourceSets[id].outcomes[branch := outcome.(committed := true)] == state.sourceSets[id].outcomes;
    } else {
      var output := outcome.result.output;
      var routed := Route(compiled, state, outcome.activation, output, dispatch).value;
      OutcomeFacts(compiled, state, id, branch);
      ConservedBuilds(compiled, state);
      PositiveIters(compiled, state);
      hide Conserved, Building, Route;
      RouteBuilds(compiled, state, outcome.activation, output, dispatch);
      RouteAppends(compiled, state, outcome.activation, output, dispatch);
      RouteOpens(compiled, state, outcome.activation, output, dispatch);
      RouteRecords(compiled, state, outcome.activation, output, dispatch);
      ReleasedIsMarked(compiled, state, id, branch, dispatch, routed);
      hide ReleaseBranch;
      MarkedSettles(state, routed, id, branch, ReleaseBranch(compiled, state, id, branch, dispatch).value);
    }
  }

  lemma NothingProgresses(state: RunState, id: nat)
    requires id in state.sourceSets
    ensures Progresses(state, state, id) && Settles(state, state)
  {
    forall other | other in state.activations
      ensures SettlesOne(state, state, other)
    {
    }
  }

  lemma RouteRecords(compiled: Compiled, state: RunState, source: Activation, output: string, dispatch: Dispatch)
    requires Wired(compiled) && Conserved(compiled, state) && Route(compiled, state, source, output, dispatch).Ok?
    requires source.id in state.activations && state.activations[source.id].activation == source
    requires source.id !in state.routed
    ensures Route(compiled, state, source, output, dispatch).value.routed == state.routed + [source.id]
  {
    IdsAreFresh(state);
    hide Conserved, Route, QueueSound, SetsSound, ItersSound, RoutingSound, JoinsSound;
    RouteKeeps(compiled, state, source, output, dispatch);
  }

  lemma MarkedSettles(state: RunState, routed: RunState, id: nat, branch: nat, after: RunState)
    requires Spreads(state, routed, None) && OnlyUnstarted(state, routed) && state.queue <= routed.queue
    requires Marked(routed, id, branch, after)
    requires id in state.sourceSets && branch in state.sourceSets[id].outcomes
    requires routed.routed == state.routed + [branch] && branch !in state.routed
    requires branch in state.activations && state.activations[branch].phase == Completed
    ensures Settles(state, after) && state.queue <= after.queue && Progresses(state, after, id)
    ensures var group := state.sourceSets[id];
            after.sourceSets[id]
              == group.(outcomes := group.outcomes[branch := group.outcomes[branch].(committed := true)])
  {
    CalmsByRouting(state, after, branch);
  }

  /** And so is a failed set all of whose branches were canceled or superseded. */
  lemma FailureCompletes(compiled: Compiled, state: RunState, id: nat)
    requires Conserved(compiled, state) && Underway(state, id, [], true)
    requires state.sourceSets[id].outcomes.Keys == Elements(state.sourceSets[id].branches)
    requires forall branch :: branch in state.sourceSets[id].branches ==>
      !CompletedButUnselected(state.sourceSets[id], branch)
    ensures FailedFully(state, id)
  {
    var group := state.sourceSets[id];
    forall branch | branch in group.outcomes
      ensures FullyReleased(state, group, branch)
    {
      OutcomeFacts(compiled, state, id, branch);
      OutcomeIsDone(compiled, state, id, branch);
      assert branch in Elements(group.branches);
    }
    forall i | 0 <= i < |state.queue|
      ensures state.queue[i].sourceSet != Some(id)
    {
      if state.queue[i].sourceSet == Some(id) {
        QueuedBranch(compiled, state, i);
      }
    }
  }

  /** A release that went through all its steps is complete. */
  lemma ReleaseCompletes(compiled: Compiled, state: RunState, id: nat, after: RunState)
    requires Conserved(compiled, after) && id in state.sourceSets && after == SettleSet(state, id)
    requires state.sourceSets[id].decided && !state.sourceSets[id].failed
    requires state.sourceSets[id].outcomes.Keys == Elements(state.sourceSets[id].branches)
    requires forall branch :: branch in state.sourceSets[id].branches ==>
      !CompletedButUnselected(state.sourceSets[id], branch)
    requires forall branch :: branch in state.sourceSets[id].selected ==>
      branch in state.sourceSets[id].outcomes && state.sourceSets[id].outcomes[branch].committed
    ensures ReleasedFully(after, id)
  {
    var group := after.sourceSets[id];
    SplitOf(after, id);
    forall branch | branch in group.outcomes
      ensures FullyReleased(after, group, branch)
    {
      OutcomeFacts(compiled, after, id, branch);
      OutcomeIsDone(compiled, after, id, branch);
      assert branch in Elements(group.branches);
      assert !CompletedButUnselected(state.sourceSets[id], branch);
    }
    forall i | 0 <= i < |after.queue|
      ensures after.queue[i].sourceSet != Some(id)
    {
      if after.queue[i].sourceSet == Some(id) {
        QueuedBranch(compiled, after, i);
      }
    }
  }

  lemma OutcomeIsDone(compiled: Compiled, state: RunState, id: nat, branch: nat)
    requires Conserved(compiled, state) && id in state.sourceSets && branch in state.sourceSets[id].outcomes
    ensures branch in state.activations && !Pending(state.activations[branch].phase)
  {
    var group := state.sourceSets[id];
    assert SetSound(state.activations, id, group, 0);
    var at :| 0 <= at < |group.branches| && group.branches[at] == branch;
    assert BranchAt(state.activations, id, group, at);
  }

  /** A queued item of a set is one of its branches, without an outcome. */
  lemma QueuedBranch(compiled: Compiled, state: RunState, i: nat)
    requires Conserved(compiled, state) && i < |state.queue| && state.queue[i].sourceSet.Some?
    ensures var id := state.queue[i].sourceSet.value;
            id in state.sourceSets && state.queue[i].id in state.sourceSets[id].branches
              && state.queue[i].id !in state.sourceSets[id].outcomes
  {
    QueuedIsPending(state, i);
    var id := state.queue[i].sourceSet.value;
    var group := state.sourceSets[id];
    assert SetSound(state.activations, id, group, 0);
    var at :| 0 <= at < |group.branches| && group.branches[at] == state.queue[i].id;
    assert BranchAt(state.activations, id, group, at);
  }

  /** Once no unselected branch is queued, none is: every branch has its outcome. */
  lemma NoneLeft(compiled: Compiled, state: RunState, id: nat)
    requires Conserved(compiled, state) && id in state.sourceSets
    requires NextUnselected(state.queue, id, state.sourceSets[id].selected) == |state.queue|
    ensures state.sourceSets[id].outcomes.Keys == Elements(state.sourceSets[id].branches)
    ensures Unrelated(state.queue, id) == state.queue
  {
    var group := state.sourceSets[id];
    forall i | 0 <= i < |state.queue|
      ensures state.queue[i].sourceSet != Some(id)
    {
      if state.queue[i].sourceSet == Some(id) {
        SelectedIsDecided(compiled, state, id, state.queue[i].id);
        QueuedBranch(compiled, state, i);
      }
    }
    NothingRelated(state.queue, id);
    SplitOf(state, id);
    BranchesHaveOutcomes(compiled, state, id);
  }

  lemma BranchesHaveOutcomes(compiled: Compiled, state: RunState, id: nat)
    requires Conserved(compiled, state) && id in state.sourceSets
    requires forall i :: 0 <= i < |state.queue| ==> state.queue[i].sourceSet != Some(id)
    ensures state.sourceSets[id].outcomes.Keys == Elements(state.sourceSets[id].branches)
  {
    var group := state.sourceSets[id];
    assert SetSound(state.activations, id, group, 0);
    assert forall i :: 0 <= i < |state.queue| ==> TrackedAs(state.activations, state.queue[i]);
    forall other | other in QueueIDs(state.queue)
      ensures other in state.activations && state.activations[other].activation.sourceSet != Some(id)
    {
      var i :| 0 <= i < |state.queue| && state.queue[i].id == other;
    }
    forall branch | branch in group.branches
      ensures branch in group.outcomes
    {
      var at :| 0 <= at < |group.branches| && group.branches[at] == branch;
      assert BranchAt(state.activations, id, group, at);
    }
  }

  // ----- a release that cannot get through -----

  const FORK := Compiled("fork", map["fork" := ["left", "right"]], map["left" := ["fork"], "right" := ["fork"]],
                         {}, {}, {"left", "right"}, 10, 2)
  const ORIGIN := CorrelationKey("run", INITIAL_EPOCH)
  const FIRST := Activation(1, "fork", "in", None, 0, ORIGIN)
  const LEFT := Activation(2, "left", "out", Some(1), 0, ORIGIN)
  const RIGHT := Activation(3, "right", "out", Some(1), 1, ORIGIN)
  const BOTH :=
    Dispatch([Delivery("left", None, false, false), Delivery("right", None, false, false)], false, true, Any)

  function Forked(): Result<RunState> {
    var started := StartActivation(Initial(FORK, "run", "in"), 1);
    if started.Err? then started
    else CommitActivation(FORK, started.value, Ran(FIRST, NodeResult("out", false), None, None, 1), BOTH)
  }

  lemma ForkedState()
    ensures Forked().Ok?
    ensures var state := Forked().value;
            && state.queue == [LEFT, RIGHT] && 2 in state.activations && 3 in state.activations
            && state.activations[2] == Tracked(LEFT) && state.activations[3] == Tracked(RIGHT)
            && 1 in state.sourceSets
            && state.sourceSets[1] == SourceSet(Any, 2, [2, 3], map[], [], false, false, false, 0, None)
  {
    hide TrackCorrelation, Bump;
    var started, ran :=
      StartActivation(Initial(FORK, "run", "in"), 1), Ran(FIRST, NodeResult("out", false), None, None, 1);
    assert started.Ok? && Finish(started.value, ran).Ok?;
    var finished := Finish(started.value, ran).value;
    assert finished.queue == [] && finished.sourceSets == map[] && finished.nextActSeq == 2 && finished.nextSetSeq == 1;
    hide StartActivation, Finish, Initial, Route;
    ForkRoutes(finished);
  }

  lemma ForkRoutes(state: RunState)
    requires state.queue == [] && state.sourceSets == map[] && state.nextActSeq == 2 && state.nextSetSeq == 1
    requires 2 !in state.activations && 3 !in state.activations
    ensures Route(FORK, state, FIRST, "out", BOTH).Ok?
    ensures var after := Route(FORK, state, FIRST, "out", BOTH).value;
            && after.queue == [LEFT, RIGHT] && 2 in after.activations && 3 in after.activations
            && after.activations[2] == Tracked(LEFT) && after.activations[3] == Tracked(RIGHT)
            && 1 in after.sourceSets
            && after.sourceSets[1] == SourceSet(Any, 2, [2, 3], map[], [], false, false, false, 0, None)
  {
    hide TrackCorrelation, Bump;
    var preparing := PrepareSourceSet(FORK, state.(routed := state.routed + [1]), BOTH);
    assert preparing.Ok? && BOTH.(deliveries := BOTH.deliveries) == BOTH;
    var prepared := preparing.value;
    assert prepared.1 == Some(1)
      && prepared.0.sourceSets[1] == SourceSet(Any, 2, [], map[], [], false, false, false, 0, None);
    hide PrepareSourceSet;
    ForkSchedules(prepared.0);
    hide ScheduleDeliveries;
  }

  lemma ForkSchedules(state: RunState)
    requires state.queue == [] && state.nextActSeq == 2 && 2 !in state.activations && 3 !in state.activations
    requires 1 in state.sourceSets
    requires state.sourceSets[1] == SourceSet(Any, 2, [], map[], [], false, false, false, 0, None)
    ensures ScheduleDeliveries(FORK, state, FIRST, "out", BOTH.deliveries, Some(1), 0, 0).Ok?
    ensures var after := ScheduleDeliveries(FORK, state, FIRST, "out", BOTH.deliveries, Some(1), 0, 0).value;
            && after.queue == [LEFT, RIGHT] && 2 in after.activations && 3 in after.activations
            && after.activations[2] == Tracked(LEFT) && after.activations[3] == Tracked(RIGHT)
            && 1 in after.sourceSets
            && after.sourceSets[1] == SourceSet(Any, 2, [2, 3], map[], [], false, false, false, 0, None)
  {
    hide TrackCorrelation, Bump;
    var left := ScheduleDelivery(FORK, state, FIRST, "out", BOTH.deliveries[0], Some(1), 0, 0);
    assert left == Ok(Enqueue(state, "left", "out", Some(1), 0, ORIGIN));
    var right := ScheduleDelivery(FORK, left.value, FIRST, "out", BOTH.deliveries[1], Some(1), 1, 1);
    assert right == Ok(Enqueue(left.value, "right", "out", Some(1), 1, ORIGIN));
    assert ScheduleDeliveries(FORK, state, FIRST, "out", BOTH.deliveries, Some(1), 0, 0) == right;
    hide ScheduleDelivery, ScheduleDeliveries;
  }

  /** Both branches run; the left one completes, the right one is interrupted. */
  function LeftCompleted(): Result<RunState> {
    var forked := Forked();
    if forked.Err? then forked
    else
      var left := StartActivation(forked.value, 2);
      if left.Err? then left
      else
        var right := StartActivation(left.value, 3);
        if right.Err? then right else CommitBranch(right.value, Ran(LEFT, NodeResult("done", false), None, None, 2))
  }

  lemma LeftCompletedState()
    ensures LeftCompleted().Ok?
    ensures var state := LeftCompleted().value;
            && state.queue == [RIGHT] && 3 in state.activations && state.activations[3].phase == Running
            && 1 in state.sourceSets
            && state.sourceSets[1]
                 == SourceSet(Any, 2, [2, 3], map[2 := LEFT_OUTCOME], [], false, false, false, 0, None)
  {
    ForkedState();
    hide Forked;
  }

  const LEFT_OUTCOME := BranchOutcome(LEFT, NodeResult("done", false), None, BranchCompleted, 2, false)

  lemma LeftDecides(group: SourceSet)
    requires group == SourceSet(Any, 2, [2, 3], map[2 := LEFT_OUTCOME], [], false, false, false, 0, None)
    ensures Successes(group, [2]) && Decide(group, [2]) == Some(Decision([2], false, true))
  {
    assert Succeeded(group) == {2} && Elements([2]) == {2};
    assert [2][..1] == [2];
  }

  lemma RightBlocks(state: RunState)
    requires state.queue == [RIGHT] && 3 in state.activations && state.activations[3].phase == Running
    requires 1 in state.sourceSets && state.sourceSets[1].selected == [2]
    ensures !Releasable(state, 1) && CancelNext(state, 1) == Err(WrongPhase(3))
  {
    assert !ReadyAt(state, 0);
    assert NextUnselected(state.queue, 1, [2]) == 0;
  }

  /** It happens: the set is decided for the branch that completed, but the other one
      has been started in the same batch and is interrupted, so it can neither be
      canceled nor is it done. The release fails on it. */
  lemma InterruptedInTheSameBatch()
    ensures LeftCompleted().Ok? && 1 in LeftCompleted().value.sourceSets
    ensures var group := LeftCompleted().value.sourceSets[1];
            Successes(group, [2]) && Decide(group, [2]) == Some(Decision([2], false, true))
    ensures var decided := DecideSet(LeftCompleted().value, 1, [2]);
            !Releasable(decided, 1) && CancelNext(decided, 1) == Err(WrongPhase(3))
  {
    LeftCompletedState();
    hide LeftCompleted, CancelNext, Releasable, Decide, Successes;
    LeftDecides(LeftCompleted().value.sourceSets[1]);
    RightBlocks(DecideSet(LeftCompleted().value, 1, [2]));
  }
}
