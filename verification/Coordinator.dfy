/** While a batch runs, its branches are told to stop as soon as they no longer matter
    (workflow/scheduler.go). */
module Coordinator {
  import opened Options
  import opened RunState
  import opened Settle

  // A node of the batch has ended: how, or with an interrupt. A cause that reports a
  // cancellation may be a deadline that has passed.
  datatype Arrival = Arrival(ran: Ran, interrupted: bool, timedOut: bool)

  // The items of one set, or those of none.
  datatype BatchGroup = BatchGroup(policy: SettlePolicy, required: int, successes: int, stopped: bool)

  type Groups = map<Option<nat>, BatchGroup>

  function GroupOf(state: RunState, id: Option<nat>): BatchGroup {
    if id.Some? && id.value in state.sourceSets then
      var group := state.sourceSets[id.value];
      BatchGroup(group.policy, Threshold(group.policy), |Succeeded(group)|, false)
    else BatchGroup(All, 0, 0, false)
  }

  predicate Succeeds(arrival: Arrival) {
    !arrival.interrupted && arrival.ran.cause.None? && !arrival.ran.result.skipped && arrival.ran.retry.None?
  }

  predicate Fails(arrival: Arrival) {
    !arrival.interrupted && arrival.ran.cause.Some? && (!arrival.ran.cause.value.canceled || arrival.timedOut)
  }

  function StopAll(groups: Groups): Groups {
    map id | id in groups :: groups[id].(stopped := true)
  }

  /** What the coordinator makes of an item that has ended. */
  function Heard(groups: Groups, arrival: Arrival): (heard: Groups)
    requires arrival.ran.activation.sourceSet in groups
    ensures heard.Keys == groups.Keys
  {
    var id := arrival.ran.activation.sourceSet;
    var group := groups[id];
    if Fails(arrival) then
      if id.None? then StopAll(groups)
      else if group.policy == All then groups[id := group.(stopped := true)] else groups
    else if Succeeds(arrival) && id.Some? then
      var more := group.(successes := group.successes + 1);
      groups[id := more.(stopped := more.stopped || (group.policy != All && more.successes >= group.required))]
    else groups
  }

  ghost predicate Known(groups: Groups, arrivals: seq<Arrival>) {
    forall i :: 0 <= i < |arrivals| ==> arrivals[i].ran.activation.sourceSet in groups
  }

  function HeardAll(groups: Groups, arrivals: seq<Arrival>): (heard: Groups)
    requires Known(groups, arrivals)
    ensures heard.Keys == groups.Keys
  {
    if arrivals == [] then groups else Heard(HeardAll(groups, arrivals[..|arrivals| - 1]), arrivals[|arrivals| - 1])
  }

  class BatchCoordinator {
    var groups: Groups

    /** One group for each set the batch has branches of, and one for the other items. */
    constructor (state: RunState, batch: seq<Activation>)
      ensures forall id :: id in groups <==> exists i :: 0 <= i < |batch| && batch[i].sourceSet == id
      ensures forall id :: id in groups ==> groups[id] == GroupOf(state, id)
    {
      groups := map[];
      new;
      for index := 0 to |batch|
        invariant forall id :: id in groups <==> exists i :: 0 <= i < index && batch[i].sourceSet == id
        invariant forall id :: id in groups ==> groups[id] == GroupOf(state, id)
      {
        if batch[index].sourceSet !in groups {
          groups := groups[batch[index].sourceSet := GroupOf(state, batch[index].sourceSet)];
        }
      }
    }

    /** An item has ended. */
    method Observe(arrival: Arrival)
      requires arrival.ran.activation.sourceSet in groups
      modifies this
      ensures groups == Heard(old(groups), arrival)
    {
      var id, ran := arrival.ran.activation.sourceSet, arrival.ran;
      if arrival.interrupted {
        return;
      }
      if ran.cause.Some? {
        if ran.cause.value.canceled && !arrival.timedOut {
          return;
        }
        if id.None? {
          CancelAll();
          return;
        }
        if groups[id].policy == All {
          groups := groups[id := groups[id].(stopped := true)];
        }
        return;
      }
      if ran.result.skipped || ran.retry.Some? || id.None? {
        return;
      }
      groups := groups[id := groups[id].(successes := groups[id].successes + 1)];
      if groups[id].policy != All && groups[id].successes >= groups[id].required {
        groups := groups[id := groups[id].(stopped := true)];
      }
    }

    method CancelAll()
      modifies this
      ensures groups == StopAll(old(groups))
    {
      var left := groups.Keys;
      while left != {}
        invariant left <= groups.Keys == old(groups).Keys
        invariant forall id :: id in groups ==>
          groups[id] == if id in left then old(groups)[id] else old(groups)[id].(stopped := true)
        decreases |left|
      {
        var id :| id in left;
        left := left - {id};
        groups := groups[id := groups[id].(stopped := true)];
      }
    }
  }

  // ----- what it means to be told to stop -----

  /** The arrival is a branch of the set that will be committed with an outcome. */
  predicate Counts(arrival: Arrival, id: nat) {
    arrival.ran.activation.sourceSet == Some(id) && !arrival.interrupted
      && !(arrival.ran.cause.None? && arrival.ran.retry.Some?)
  }

  function OutcomeOf(ran: Ran): BranchOutcome {
    BranchOutcome(ran.activation, ran.result, ran.cause, BranchPhaseOf(ran), ran.completion, false)
  }

  /** The set once these items are committed, in whatever order. */
  function WithOutcomes(group: SourceSet, id: nat, arrivals: seq<Arrival>): SourceSet {
    if arrivals == [] then group
    else WithOutcome(WithOutcomes(group, id, arrivals[..|arrivals| - 1]), id, arrivals[|arrivals| - 1])
  }

  function WithOutcome(group: SourceSet, id: nat, arrival: Arrival): SourceSet {
    if Counts(arrival, id) then
      group.(outcomes := group.outcomes[arrival.ran.activation.id := OutcomeOf(arrival.ran)]) else group
  }

  /** The items are branches without an outcome, each of which ends once. */
  ghost predicate Awaited(group: SourceSet, id: nat, arrivals: seq<Arrival>) {
    && (forall i :: 0 <= i < |arrivals| && Counts(arrivals[i], id) ==>
          arrivals[i].ran.activation.id in group.branches && arrivals[i].ran.activation.id !in group.outcomes)
    && (forall i, j :: 0 <= i < j < |arrivals| ==> arrivals[i].ran.activation.id != arrivals[j].ran.activation.id)
  }

  function SucceededOf(arrivals: seq<Arrival>, id: nat): nat {
    if arrivals == [] then 0
    else
      var last := |arrivals| - 1;
      SucceededOf(arrivals[..last], id)
        + (if Succeeds(arrivals[last]) && arrivals[last].ran.activation.sourceSet == Some(id) then 1 else 0)
  }

  lemma {:induction false} OutcomesAre(group: SourceSet, id: nat, arrivals: seq<Arrival>)
    requires Awaited(group, id, arrivals)
    ensures var later := WithOutcomes(group, id, arrivals);
            && later == group.(outcomes := later.outcomes)
            && later.outcomes.Keys <= group.outcomes.Keys + Elements(group.branches)
            && (forall branch :: branch in group.outcomes ==>
                  branch in later.outcomes && later.outcomes[branch] == group.outcomes[branch])
            && (forall branch :: branch in later.outcomes && branch !in group.outcomes ==> branch in Arrived(arrivals))
  {
    if arrivals != [] {
      var before, last := arrivals[..|arrivals| - 1], arrivals[|arrivals| - 1];
      PrefixAwaited(group, id, arrivals, |before|);
      OutcomesAre(group, id, before);
      ArrivedMore(arrivals);
      if Counts(last, id) {
        assert last.ran.activation.id in Elements(group.branches) && last.ran.activation.id !in group.outcomes;
      }
    }
  }

  function Arrived(arrivals: seq<Arrival>): set<nat> {
    set i | 0 <= i < |arrivals| :: arrivals[i].ran.activation.id
  }

  lemma ArrivedMore(arrivals: seq<Arrival>)
    requires arrivals != []
    ensures Arrived(arrivals) == Arrived(arrivals[..|arrivals| - 1]) + {arrivals[|arrivals| - 1].ran.activation.id}
  {
    var before := arrivals[..|arrivals| - 1];
    forall branch | branch in Arrived(before)
      ensures branch in Arrived(arrivals)
    {
      var i :| 0 <= i < |before| && before[i].ran.activation.id == branch;
      assert arrivals[i] == before[i];
    }
    forall branch | branch in Arrived(arrivals)
      ensures branch in Arrived(before) + {arrivals[|before|].ran.activation.id}
    {
      var i :| 0 <= i < |arrivals| && arrivals[i].ran.activation.id == branch;
      if i < |before| {
        assert before[i] == arrivals[i];
      }
    }
  }

  /** Each arrival that succeeded is one success more for its set. */
  lemma {:induction false} SuccessesAre(group: SourceSet, id: nat, arrivals: seq<Arrival>)
    requires Awaited(group, id, arrivals)
    ensures |Succeeded(WithOutcomes(group, id, arrivals))| == |Succeeded(group)| + SucceededOf(arrivals, id)
  {
    if arrivals != [] {
      var before, last := arrivals[..|arrivals| - 1], arrivals[|arrivals| - 1];
      PrefixAwaited(group, id, arrivals, |before|);
      SuccessesAre(group, id, before);
      OutcomesAre(group, id, before);
      NotYetArrived(group, id, arrivals);
      var earlier := WithOutcomes(group, id, before);
      if Counts(last, id) {
        assert last.ran.activation.id !in earlier.outcomes;
        OneMoreOutcome(earlier, last);
      }
    }
  }

  lemma NotYetArrived(group: SourceSet, id: nat, arrivals: seq<Arrival>)
    requires Awaited(group, id, arrivals) && arrivals != []
    ensures arrivals[|arrivals| - 1].ran.activation.id !in Arrived(arrivals[..|arrivals| - 1])
  {
  }

  lemma OneMoreOutcome(earlier: SourceSet, last: Arrival)
    requires last.ran.activation.id !in earlier.outcomes && !last.interrupted
    requires !(last.ran.cause.None? && last.ran.retry.Some?)
    ensures |Succeeded(earlier.(outcomes := earlier.outcomes[last.ran.activation.id := OutcomeOf(last.ran)]))|
         == |Succeeded(earlier)| + if Succeeds(last) then 1 else 0
  {
    var branch, later :=
      last.ran.activation.id, earlier.(outcomes := earlier.outcomes[last.ran.activation.id := OutcomeOf(last.ran)]);
    assert Succeeded(later) == Succeeded(earlier) + (if Succeeds(last) then {branch} else {});
  }

  lemma CountedWith(group: SourceSet, id: nat, arrivals: seq<Arrival>)
    requires Counted(group) && Awaited(group, id, arrivals)
    ensures Counted(WithOutcomes(group, id, arrivals))
  {
    OutcomesAre(group, id, arrivals);
  }

  ghost predicate NoLoneFailure(arrivals: seq<Arrival>) {
    forall i :: 0 <= i < |arrivals| ==> !(Fails(arrivals[i]) && arrivals[i].ran.activation.sourceSet.None?)
  }

  lemma {:induction false} GroupHears(groups: Groups, id: nat, arrivals: seq<Arrival>)
    requires Known(groups, arrivals) && Some(id) in groups && groups[Some(id)].policy != All
    requires !groups[Some(id)].stopped && NoLoneFailure(arrivals)
    ensures var group, heard := groups[Some(id)], HeardAll(groups, arrivals)[Some(id)];
            && heard.policy == group.policy && heard.required == group.required
            && heard.successes == group.successes + SucceededOf(arrivals, id)
            && (heard.stopped <==> SucceededOf(arrivals, id) > 0 && heard.successes >= group.required)
  {
    if arrivals != [] {
      GroupHears(groups, id, arrivals[..|arrivals| - 1]);
    }
  }

  /** The branches of an any or quorum set are told to stop exactly when one of them has
      succeeded and, with those that ended so far, success is certain: nothing that the
      others may still come to can change it. */
  lemma StopsWhenCertain(state: RunState, groups: Groups, id: nat, arrivals: seq<Arrival>)
    requires id in state.sourceSets && Some(id) in groups && groups[Some(id)] == GroupOf(state, Some(id))
    requires Known(groups, arrivals)
    requires var group := state.sourceSets[id];
             Counted(group) && ValidPolicy(group.policy) && group.policy != All && Awaited(group, id, arrivals)
               && NoLoneFailure(arrivals)
    ensures HeardAll(groups, arrivals)[Some(id)].stopped
       <==> SucceededOf(arrivals, id) > 0 && CertainlySatisfied(WithOutcomes(state.sourceSets[id], id, arrivals))
  {
    var group := state.sourceSets[id];
    var later := WithOutcomes(group, id, arrivals);
    GroupHears(groups, id, arrivals);
    OutcomesAre(group, id, arrivals);
    SuccessesAre(group, id, arrivals);
    CountedWith(group, id, arrivals);
    CertainIffEnough(later);
  }

  /** Of the branches that end after the first `count`, none that succeeds had completed
      before one of those selected: a branch draws its number before it is heard of. */
  ghost predicate HeardInTime(stopped: SourceSet, id: nat, arrivals: seq<Arrival>, count: nat, selected: seq<nat>) {
    forall i, chosen :: count <= i < |arrivals| && chosen in selected && SucceedsFor(arrivals[i], id) ==>
      chosen in stopped.outcomes && Earlier(stopped.outcomes[chosen], OutcomeOf(arrivals[i].ran))
  }

  predicate SucceedsFor(arrival: Arrival, id: nat) {
    Succeeds(arrival) && arrival.ran.activation.sourceSet == Some(id)
  }

  /** Once success is certain the set stays one, whatever ends after that; and it is for
      the same branches exactly if those heard of later had not completed before them. */
  lemma StoppedIsDecided(group: SourceSet, id: nat, arrivals: seq<Arrival>, count: nat, successes: seq<nat>,
                         later: seq<nat>)
    requires Counted(group) && ValidPolicy(group.policy) && group.policy != All && Awaited(group, id, arrivals)
    requires count <= |arrivals| && CertainlySatisfied(WithOutcomes(group, id, arrivals[..count]))
    requires ByCompletion(WithOutcomes(group, id, arrivals[..count]), successes)
    requires ByCompletion(WithOutcomes(group, id, arrivals), later)
    ensures var stopped, more := WithOutcomes(group, id, arrivals[..count]), WithOutcomes(group, id, arrivals);
            var decision := Decide(stopped, successes);
            && decision.Some? && decision.value.ready && !decision.value.failed
            && Decide(more, later).Some? && Decide(more, later).value.ready && !Decide(more, later).value.failed
            && (Decide(more, later) == decision <==> HeardInTime(stopped, id, arrivals, count, decision.value.selected))
  {
    hide ByCompletion, Awaited, Counted, CertainlySatisfied, NoneOvertakes, HeardInTime;
    var stopped, more := WithOutcomes(group, id, arrivals[..count]), WithOutcomes(group, id, arrivals);
    PrefixAwaited(group, id, arrivals, count);
    OutcomesAre(group, id, arrivals[..count]);
    CountedWith(group, id, arrivals[..count]);
    CountedWith(group, id, arrivals);
    OutcomesAre(group, id, arrivals);
    MoreGrows(group, id, arrivals, count);
    DecidedWhenCertain(stopped, successes);
    SelectionStandsIff(stopped, more, successes, later);
    LaterSuccesses(group, id, arrivals, count, Decide(stopped, successes).value.selected);
  }

  lemma DecidedWhenCertain(group: SourceSet, successes: seq<nat>)
    requires Counted(group) && ValidPolicy(group.policy) && group.policy != All
    requires CertainlySatisfied(group) && ByCompletion(group, successes)
    ensures Decide(group, successes).Some? && Decide(group, successes).value.ready
    ensures !Decide(group, successes).value.failed
    ensures forall chosen :: chosen in Decide(group, successes).value.selected ==> chosen in group.outcomes
  {
    CertainIffEnough(group);
    SuccessCount(group, successes);
    SucceededSize(group, successes);
  }

  lemma PrefixAwaited(group: SourceSet, id: nat, arrivals: seq<Arrival>, count: nat)
    requires Awaited(group, id, arrivals) && count <= |arrivals|
    ensures Awaited(group, id, arrivals[..count])
  {
  }

  /** More arrivals only add outcomes. */
  lemma {:induction false} MoreGrows(group: SourceSet, id: nat, arrivals: seq<Arrival>, count: nat)
    requires Awaited(group, id, arrivals) && count <= |arrivals|
    ensures Grows(WithOutcomes(group, id, arrivals[..count]), WithOutcomes(group, id, arrivals))
    decreases |arrivals|
  {
    if count == |arrivals| {
      assert arrivals[..count] == arrivals;
    } else {
      var before := arrivals[..|arrivals| - 1];
      PrefixAwaited(group, id, arrivals, |before|);
      MoreGrows(group, id, before, count);
      assert before[..count] == arrivals[..count];
      OutcomesAre(group, id, before);
      NotYetArrived(group, id, arrivals);
    }
  }

  /** The successes that came in later are those of the later arrivals. */
  lemma {:induction false} LaterOutcomes(group: SourceSet, id: nat, arrivals: seq<Arrival>, count: nat)
    requires Awaited(group, id, arrivals) && count <= |arrivals|
    ensures var stopped, more := WithOutcomes(group, id, arrivals[..count]), WithOutcomes(group, id, arrivals);
            && (forall i :: count <= i < |arrivals| && Counts(arrivals[i], id) ==>
                  arrivals[i].ran.activation.id in more.outcomes && arrivals[i].ran.activation.id !in stopped.outcomes
                  && more.outcomes[arrivals[i].ran.activation.id] == OutcomeOf(arrivals[i].ran))
            && (forall branch :: branch in more.outcomes && branch !in stopped.outcomes ==>
                  Brought(id, arrivals, count, branch))
    decreases |arrivals|
  {
    var more := WithOutcomes(group, id, arrivals);
    if count == |arrivals| {
      assert arrivals[..count] == arrivals;
    } else {
      var before, last := arrivals[..|arrivals| - 1], |arrivals| - 1;
      PrefixAwaited(group, id, arrivals, last);
      PrefixAwaited(group, id, arrivals, count);
      LaterOutcomes(group, id, before, count);
      assert before[..count] == arrivals[..count];
      OutcomesAre(group, id, arrivals[..count]);
      if Counts(arrivals[last], id) {
        LastIsNew(group, id, arrivals, count);
      }
      forall i | count <= i < |arrivals| && Counts(arrivals[i], id)
        ensures arrivals[i].ran.activation.id in more.outcomes
        ensures more.outcomes[arrivals[i].ran.activation.id] == OutcomeOf(arrivals[i].ran)
      {
        if i < last {
          assert before[i] == arrivals[i];
        }
      }
      forall branch | branch in more.outcomes && branch !in WithOutcomes(group, id, arrivals[..count]).outcomes
        ensures Brought(id, arrivals, count, branch)
      {
        BroughtBefore(id, arrivals, count, branch);
      }
    }
  }

  /** One of the later arrivals is this branch of the set. */
  ghost predicate Brought(id: nat, arrivals: seq<Arrival>, count: nat, branch: nat) {
    exists i :: count <= i < |arrivals| && Counts(arrivals[i], id) && arrivals[i].ran.activation.id == branch
  }

  lemma BroughtBefore(id: nat, arrivals: seq<Arrival>, count: nat, branch: nat)
    requires count < |arrivals|
    ensures Brought(id, arrivals[..|arrivals| - 1], count, branch) ==> Brought(id, arrivals, count, branch)
  {
    var before := arrivals[..|arrivals| - 1];
    if Brought(id, before, count, branch) {
      var i :| count <= i < |before| && Counts(before[i], id) && before[i].ran.activation.id == branch;
      assert arrivals[i] == before[i];
    }
  }

  lemma LastIsNew(group: SourceSet, id: nat, arrivals: seq<Arrival>, count: nat)
    requires Awaited(group, id, arrivals) && count < |arrivals| && Counts(arrivals[|arrivals| - 1], id)
    ensures arrivals[|arrivals| - 1].ran.activation.id !in WithOutcomes(group, id, arrivals[..count]).outcomes
  {
    PrefixAwaited(group, id, arrivals, count);
    OutcomesAre(group, id, arrivals[..count]);
  }

  lemma LaterSuccesses(group: SourceSet, id: nat, arrivals: seq<Arrival>, count: nat, selected: seq<nat>)
    requires Awaited(group, id, arrivals) && count <= |arrivals|
    requires forall chosen :: chosen in selected ==> chosen in WithOutcomes(group, id, arrivals[..count]).outcomes
    ensures var stopped, more := WithOutcomes(group, id, arrivals[..count]), WithOutcomes(group, id, arrivals);
            NoneOvertakes(stopped, more, selected) <==> HeardInTime(stopped, id, arrivals, count, selected)
  {
    hide Awaited;
    var stopped, more := WithOutcomes(group, id, arrivals[..count]), WithOutcomes(group, id, arrivals);
    LaterOutcomes(group, id, arrivals, count);
    MoreGrows(group, id, arrivals, count);
    hide WithOutcomes;
    if HeardInTime(stopped, id, arrivals, count, selected) {
      forall chosen, other | chosen in selected && other in Succeeded(more) && other !in stopped.outcomes
        ensures chosen in more.outcomes && Earlier(more.outcomes[chosen], more.outcomes[other])
      {
        assert Brought(id, arrivals, count, other);
        var i :| count <= i < |arrivals| && Counts(arrivals[i], id) && arrivals[i].ran.activation.id == other;
      }
    }
    if NoneOvertakes(stopped, more, selected) {
      forall i, chosen | count <= i < |arrivals| && chosen in selected && SucceedsFor(arrivals[i], id)
        ensures chosen in stopped.outcomes && Earlier(stopped.outcomes[chosen], OutcomeOf(arrivals[i].ran))
      {
        assert arrivals[i].ran.activation.id in Succeeded(more);
      }
    }
  }

  lemma WithMore(group: SourceSet, id: nat, arrivals: seq<Arrival>, last: Arrival)
    ensures WithOutcomes(group, id, arrivals + [last]) == WithOutcome(WithOutcomes(group, id, arrivals), id, last)
  {
    assert (arrivals + [last])[..|arrivals|] == arrivals;
  }

  /** It happens that it is not: a branch that completed first is heard of second, after the
      set has been told to stop, and is selected all the same. */
  lemma Overtaken(branch: Activation, other: Activation, result: NodeResult)
    returns (group: SourceSet, arrivals: seq<Arrival>, id: nat)
    requires branch.id != other.id && !result.skipped && branch.sourceSet.Some? && other.sourceSet == branch.sourceSet
    ensures Counted(group) && group.policy == Any && Awaited(group, id, arrivals) && |arrivals| == 2
    ensures arrivals[0].ran.activation == branch && arrivals[1].ran.activation == other
    ensures CertainlySatisfied(WithOutcomes(group, id, arrivals[..1]))
    ensures Decide(WithOutcomes(group, id, arrivals[..1]), [branch.id]) == Some(Decision([branch.id], false, true))
    ensures ByCompletion(WithOutcomes(group, id, arrivals[..1]), [branch.id])
    ensures ByCompletion(WithOutcomes(group, id, arrivals), [other.id, branch.id])
    ensures Decide(WithOutcomes(group, id, arrivals), [other.id, branch.id]) == Some(Decision([other.id], false, true))
  {
    id := branch.sourceSet.value;
    group := SourceSet(Any, 2, [branch.id, other.id], map[], [], false, false, false, 0, None);
    var second, first := Ran(branch, result, None, None, 2), Ran(other, result, None, None, 1);
    arrivals := [Arrival(second, false, false), Arrival(first, false, false)];
    var one, both := WithOutcomes(group, id, arrivals[..1]), WithOutcomes(group, id, arrivals);
    WithMore(group, id, [], arrivals[0]);
    WithMore(group, id, [arrivals[0]], arrivals[1]);
    assert arrivals[..1] == [] + [arrivals[0]] && arrivals == [arrivals[0]] + [arrivals[1]];
    assert one == group.(outcomes := map[branch.id := OutcomeOf(second)]);
    assert both == group.(outcomes := map[branch.id := OutcomeOf(second), other.id := OutcomeOf(first)]);
    assert [branch.id][..1] == [branch.id] && [other.id, branch.id][..1] == [other.id];
    assert Succeeded(one) == {branch.id} && Succeeded(both) == {branch.id, other.id};
    assert Elements([branch.id]) == {branch.id};
    assert Elements([other.id, branch.id]) == {branch.id, other.id};
    assert branch.id in group.branches && group.branches[1] == other.id;
    CountedWith(group, id, arrivals[..1]);
    CertainIffEnough(one);
  }

  lemma {:induction false} AllHears(groups: Groups, id: nat, arrivals: seq<Arrival>)
    requires Known(groups, arrivals) && Some(id) in groups && groups[Some(id)].policy == All
    requires !groups[Some(id)].stopped && NoLoneFailure(arrivals)
    ensures HeardAll(groups, arrivals)[Some(id)].policy == All
    ensures HeardAll(groups, arrivals)[Some(id)].stopped ==>
              exists i :: 0 <= i < |arrivals| && Fails(arrivals[i]) && arrivals[i].ran.activation.sourceSet == Some(id)
  {
    if arrivals != [] {
      var before := arrivals[..|arrivals| - 1];
      assert forall i :: 0 <= i < |before| ==> arrivals[i] == before[i];
      AllHears(groups, id, before);
      assert arrivals[|before|] == arrivals[|arrivals| - 1];
    }
  }

  lemma {:induction false} FailureStays(group: SourceSet, id: nat, arrivals: seq<Arrival>, at: nat)
    requires Awaited(group, id, arrivals) && at < |arrivals| && Fails(arrivals[at])
    requires arrivals[at].ran.activation.sourceSet == Some(id)
    ensures var later := WithOutcomes(group, id, arrivals);
            && arrivals[at].ran.activation.id in later.outcomes
            && var phase := later.outcomes[arrivals[at].ran.activation.id].phase;
                 phase == BranchFailed || phase == BranchCanceled
  {
    var before := arrivals[..|arrivals| - 1];
    if at < |before| {
      assert before[at] == arrivals[at];
      PrefixAwaited(group, id, arrivals, |before|);
      FailureStays(group, id, before, at);
    }
  }

  /** The branches of a set that needs them all are told to stop only when one of them
      has failed, and then success is out of reach. */
  lemma StopsWhenHopeless(state: RunState, groups: Groups, id: nat, arrivals: seq<Arrival>)
    requires id in state.sourceSets && Some(id) in groups && groups[Some(id)] == GroupOf(state, Some(id))
    requires Known(groups, arrivals)
    requires var group := state.sourceSets[id];
      Counted(group) && group.policy == All && Awaited(group, id, arrivals) && NoLoneFailure(arrivals)
    ensures HeardAll(groups, arrivals)[Some(id)].stopped ==>
      NeverSatisfied(WithOutcomes(state.sourceSets[id], id, arrivals))
  {
    var group := state.sourceSets[id];
    AllHears(groups, id, arrivals);
    CountedWith(group, id, arrivals);
    OutcomesAre(group, id, arrivals);
    if HeardAll(groups, arrivals)[Some(id)].stopped {
      var at :| 0 <= at < |arrivals| && Fails(arrivals[at]) && arrivals[at].ran.activation.sourceSet == Some(id);
      FailureStays(group, id, arrivals, at);
      NeverIffFailure(WithOutcomes(group, id, arrivals));
    }
  }
}
