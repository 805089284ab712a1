/** When a fan-out set is decided, and on whom (workflow/settle.go). */
module Settle {
  import opened Options
  import opened RunState

  // ----- the successes of a set, in the order the policy looks at them -----

  function Succeeded(group: SourceSet): set<nat> {
    set id | id in group.outcomes && group.outcomes[id].phase == BranchCompleted
  }

  predicate Earlier(left: BranchOutcome, right: BranchOutcome) {
    left.completion < right.completion
    || (left.completion == right.completion && left.activation.branchIndex < right.activation.branchIndex)
  }

  /** Each branch has an index of its own. */
  ghost predicate DistinctIndexes(group: SourceSet) {
    forall left, right :: left in group.outcomes && right in group.outcomes && left != right ==>
      group.outcomes[left].activation.branchIndex != group.outcomes[right].activation.branchIndex
  }

  ghost predicate InOrder(outcomes: map<nat, BranchOutcome>, ids: seq<nat>) {
    && (forall id :: id in ids ==> id in outcomes)
    && (forall i, j :: 0 <= i < j < |ids| ==> Earlier(outcomes[ids[i]], outcomes[ids[j]]))
  }

  function Elements(ids: seq<nat>): set<nat> {
    set id | id in ids
  }

  /** The successful branches from the earliest completion to the latest. */
  ghost predicate ByCompletion(group: SourceSet, ids: seq<nat>) {
    InOrder(group.outcomes, ids) && Elements(ids) == Succeeded(group)
  }

  function InBranchOrder(group: SourceSet, branches: seq<nat>): seq<nat> {
    if branches == [] then []
    else
      (if branches[0] in Succeeded(group) then [branches[0]] else []) + InBranchOrder(group, branches[1..])
  }

  ghost predicate Successes(group: SourceSet, ids: seq<nat>) {
    if group.policy == All then ids == InBranchOrder(group, group.branches) else ByCompletion(group, ids)
  }

  /** Collects and sorts the successes; the order in which a map hands them out
      does not matter. */
  method FindSuccesses(group: SourceSet) returns (selected: seq<nat>)
    requires DistinctIndexes(group)
    ensures Successes(group, selected)
  {
    if group.policy == All {
      selected := CollectInBranchOrder(group);
    } else {
      selected := CollectByCompletion(group);
    }
  }

  method CollectInBranchOrder(group: SourceSet) returns (selected: seq<nat>)
    ensures selected == InBranchOrder(group, group.branches)
  {
    selected := [];
    var index := |group.branches|;
    while index > 0
      invariant 0 <= index <= |group.branches|
      invariant selected == InBranchOrder(group, group.branches[index..])
    {
      index := index - 1;
      var id := group.branches[index];
      assert group.branches[index..][1..] == group.branches[index + 1..];
      if id in group.outcomes && group.outcomes[id].phase == BranchCompleted {
        selected := [id] + selected;
      }
    }
  }

  method CollectByCompletion(group: SourceSet) returns (selected: seq<nat>)
    requires DistinctIndexes(group)
    ensures ByCompletion(group, selected)
  {
    selected := [];
    var left := Succeeded(group);
    assert InOrder(group.outcomes, selected) && Elements(selected) == {};
    hide InOrder, DistinctIndexes;
    while left != {}
      invariant left <= Succeeded(group) && Elements(selected) == Succeeded(group) - left
      invariant InOrder(group.outcomes, selected)
      decreases |left|
    {
      var id :| id in left;
      left := left - {id};
      selected := InsertByCompletion(group, selected, id);
    }
  }

  method InsertByCompletion(group: SourceSet, sorted: seq<nat>, id: nat) returns (selected: seq<nat>)
    requires DistinctIndexes(group) && InOrder(group.outcomes, sorted) && id in group.outcomes
    requires id !in Elements(sorted)
    ensures InOrder(group.outcomes, selected) && Elements(selected) == Elements(sorted) + {id}
  {
    var at := |sorted|;
    while at > 0 && Earlier(group.outcomes[id], group.outcomes[sorted[at - 1]])
      invariant 0 <= at <= |sorted|
      invariant forall i :: at <= i < |sorted| ==> Earlier(group.outcomes[id], group.outcomes[sorted[i]])
    {
      at := at - 1;
    }
    selected := sorted[..at] + [id] + sorted[at..];
    InsertedInOrder(group, sorted, at, id);
    assert sorted == sorted[..at] + sorted[at..];
  }

  lemma InsertedInOrder(group: SourceSet, sorted: seq<nat>, at: nat, id: nat)
    requires DistinctIndexes(group) && InOrder(group.outcomes, sorted) && id in group.outcomes && id !in sorted
    requires at <= |sorted| && forall i :: at <= i < |sorted| ==> Earlier(group.outcomes[id], group.outcomes[sorted[i]])
    requires at > 0 ==> !Earlier(group.outcomes[id], group.outcomes[sorted[at - 1]])
    ensures InOrder(group.outcomes, sorted[..at] + [id] + sorted[at..])
  {
    if at > 0 {
      assert Earlier(group.outcomes[sorted[at - 1]], group.outcomes[id]);
    }
    hide DistinctIndexes;
    var selected := sorted[..at] + [id] + sorted[at..];
    forall i, j | 0 <= i < j < |selected|
      ensures Earlier(group.outcomes[selected[i]], group.outcomes[selected[j]])
    {
      if i < at {
        assert selected[i] == sorted[i];
        assert i < at - 1 ==> Earlier(group.outcomes[sorted[i]], group.outcomes[sorted[at - 1]]);
        if j > at { assert selected[j] == sorted[j - 1]; }
      } else {
        assert selected[j] == sorted[j - 1];
        if i > at { assert selected[i] == sorted[i - 1]; }
      }
    }
  }

  // ----- the decision -----

  datatype Decision = Decision(selected: seq<nat>, failed: bool, ready: bool)

  const UNDECIDED := Decision([], false, false)

  function HasFailure(group: SourceSet): bool {
    exists id :: id in group.outcomes
      && (group.outcomes[id].phase == BranchFailed || group.outcomes[id].phase == BranchCanceled)
  }

  function Threshold(policy: SettlePolicy): int {
    match policy
    case All => 0
    case Any => 1
    case Quorum(quorum) => quorum
  }

  function DecideOpen(group: SourceSet, successes: seq<nat>): Decision {
    if group.policy == All then Decision([], HasFailure(group), HasFailure(group))
    else if 0 <= Threshold(group.policy) <= |successes| then Decision(successes[..Threshold(group.policy)], false, true)
    else UNDECIDED
  }

  function DecideAll(group: SourceSet, successes: seq<nat>): Decision {
    if HasFailure(group) then Decision([], true, true)
    else if |group.outcomes| < group.expected then UNDECIDED
    else Decision(successes, false, true)
  }

  /** The decision for a set, or none when its policy cannot be applied to it. */
  function Decide(group: SourceSet, successes: seq<nat>): Option<Decision> {
    if group.openSources > 0 then Some(DecideOpen(group, successes))
    else
      match Required(group.policy, group.expected)
      case None => None
      case Some(required) =>
        if group.policy == All then Some(DecideAll(group, successes))
        else if 0 <= required <= |successes| then Some(Decision(successes[..required], false, true))
        else if |successes| + group.expected - |group.outcomes| < required then Some(Decision([], true, true))
        else Some(UNDECIDED)
  }

  // ----- what the decision means -----

  /** The branches split into those with an outcome and those still to come. */
  ghost predicate Counted(group: SourceSet) {
    && (forall i, j :: 0 <= i < j < |group.branches| ==> group.branches[i] != group.branches[j])
    && group.outcomes.Keys <= Elements(group.branches)
    && group.expected == |group.branches|
  }

  function Outstanding(group: SourceSet): set<nat> {
    Elements(group.branches) - group.outcomes.Keys
  }

  /** How the outstanding branches may turn out; an open set may get more of them. */
  ghost predicate Continuation(group: SourceSet, rest: map<nat, BranchPhase>) {
    && rest.Keys !! group.outcomes.Keys
    && Outstanding(group) <= rest.Keys
    && (group.openSources <= 0 ==> rest.Keys == Outstanding(group))
  }

  function PhasesOf(group: SourceSet): map<nat, BranchPhase> {
    map id | id in group.outcomes :: group.outcomes[id].phase
  }

  function Completions(phases: map<nat, BranchPhase>): set<nat> {
    set id | id in phases && phases[id] == BranchCompleted
  }

  /** What a policy asks of a set whose branches all have their outcome. */
  ghost predicate Satisfied(policy: SettlePolicy, phases: map<nat, BranchPhase>) {
    match policy
    case All => forall id :: id in phases ==> phases[id] != BranchFailed && phases[id] != BranchCanceled
    case Any => Completions(phases) != {}
    case Quorum(quorum) => |Completions(phases)| >= quorum
  }

  ghost predicate Ends(group: SourceSet, rest: map<nat, BranchPhase>) {
    Satisfied(group.policy, PhasesOf(group) + rest)
  }

  ghost predicate CertainlySatisfied(group: SourceSet) {
    forall rest :: Continuation(group, rest) ==> Ends(group, rest)
  }

  ghost predicate NeverSatisfied(group: SourceSet) {
    forall rest :: Continuation(group, rest) ==> !Ends(group, rest)
  }

  lemma {:induction false} ElementsSize(ids: seq<nat>)
    requires forall i, j :: 0 <= i < j < |ids| ==> ids[i] != ids[j]
    ensures |Elements(ids)| == |ids|
  {
    if ids != [] {
      var last := |ids| - 1;
      ElementsSize(ids[..last]);
      assert Elements(ids) == Elements(ids[..last]) + {ids[last]};
    } else {
      assert Elements(ids) == {};
    }
  }

  lemma InOrderIsDistinct(outcomes: map<nat, BranchOutcome>, ids: seq<nat>)
    requires InOrder(outcomes, ids)
    ensures forall i, j :: 0 <= i < j < |ids| ==> ids[i] != ids[j]
  {
    forall i, j | 0 <= i < j < |ids|
      ensures ids[i] != ids[j]
    {
      assert Earlier(outcomes[ids[i]], outcomes[ids[j]]);
    }
  }

  lemma SuccessCount(group: SourceSet, successes: seq<nat>)
    requires group.policy != All && Successes(group, successes)
    ensures |successes| == |Succeeded(group)|
  {
    InOrderIsDistinct(group.outcomes, successes);
    ElementsSize(successes);
  }

  lemma Disjoint(left: set<nat>, right: set<nat>)
    requires left !! right
    ensures |left + right| == |left| + |right|
  {
  }

  lemma NewIDs(avoid: set<nat>, count: nat) returns (ids: set<nat>)
    ensures ids !! avoid && |ids| == count
  {
    ids := {};
    var next := 0;
    while next < count
      invariant 0 <= next <= count && ids !! avoid && |ids| == next
    {
      var id := NewID(avoid + ids);
      ids := ids + {id};
      next := next + 1;
    }
  }

  lemma {:induction false} NewID(avoid: set<nat>) returns (id: nat)
    ensures id !in avoid && forall other :: other in avoid ==> other < id
    decreases |avoid|
  {
    if avoid == {} {
      id := 0;
    } else {
      var one :| one in avoid;
      id := NewID(avoid - {one});
      assert avoid == (avoid - {one}) + {one};
      if id <= one {
        id := one + 1;
      }
    }
  }

  /** How many successes there will be once the outstanding branches turn out so. */
  lemma FinalCount(group: SourceSet, rest: map<nat, BranchPhase>)
    requires Continuation(group, rest)
    ensures |Completions(PhasesOf(group) + rest)| == |Succeeded(group)| + |Completions(rest)|
    ensures Completions(rest) <= rest.Keys
  {
    assert Completions(PhasesOf(group) + rest) == Succeeded(group) + Completions(rest);
    Disjoint(Succeeded(group), Completions(rest));
  }

  function Turning(ids: set<nat>, phase: BranchPhase): map<nat, BranchPhase> {
    map id | id in ids :: phase
  }

  lemma AllComplete(ids: set<nat>)
    ensures Completions(Turning(ids, BranchCompleted)) == ids
  {
  }

  /** If every outstanding branch fails, only the present successes count. */
  lemma WorstCase(group: SourceSet) returns (rest: map<nat, BranchPhase>)
    ensures Continuation(group, rest) && Completions(rest) == {}
  {
    rest := Turning(Outstanding(group), BranchFailed);
  }

  /** If they all succeed, and an open set gets `extra` more that do, all those count. */
  lemma BestCase(group: SourceSet, extra: nat) returns (rest: map<nat, BranchPhase>)
    requires Counted(group) && (extra == 0 || group.openSources > 0)
    ensures Continuation(group, rest) && |Completions(rest)| == group.expected - |group.outcomes| + extra
    ensures forall id :: id in rest ==> rest[id] == BranchCompleted
  {
    var ids := NewIDs(group.outcomes.Keys + Elements(group.branches), extra);
    rest := Turning(Outstanding(group) + ids, BranchCompleted);
    OutstandingCount(group);
    hide Counted;
    AllComplete(Outstanding(group) + ids);
    Disjoint(Outstanding(group), ids);
  }

  lemma OutstandingCount(group: SourceSet)
    requires Counted(group)
    ensures |Outstanding(group)| == group.expected - |group.outcomes|
  {
    ElementsSize(group.branches);
    assert Elements(group.branches) == Outstanding(group) + group.outcomes.Keys;
    Disjoint(Outstanding(group), group.outcomes.Keys);
  }

  lemma CountDecides(group: SourceSet, rest: map<nat, BranchPhase>, required: int)
    requires group.policy != All && ValidPolicy(group.policy) && required == Threshold(group.policy)
    requires Continuation(group, rest)
    ensures Ends(group, rest) <==> |Succeeded(group)| + |Completions(rest)| >= required
  {
    FinalCount(group, rest);
  }

  lemma CompletionsBounded(group: SourceSet, rest: map<nat, BranchPhase>)
    requires Counted(group) && Continuation(group, rest) && group.openSources <= 0
    ensures |Completions(rest)| <= group.expected - |group.outcomes|
  {
    OutstandingCount(group);
    SubsetSize(Completions(rest), Outstanding(group));
  }

  lemma {:induction false} SubsetSize(part: set<nat>, whole: set<nat>)
    requires part <= whole
    ensures |part| <= |whole|
    decreases |whole|
  {
    Disjoint(part, whole - part);
    assert whole == part + (whole - part);
  }

  // ----- any and quorum -----

  /** Enough successes are certain exactly when they are there already. */
  lemma CertainIffEnough(group: SourceSet)
    requires Counted(group) && group.policy != All && ValidPolicy(group.policy)
    ensures CertainlySatisfied(group) <==> |Succeeded(group)| >= Threshold(group.policy)
  {
    var required := Threshold(group.policy);
    forall rest | Continuation(group, rest)
      ensures Ends(group, rest) <==> |Succeeded(group)| + |Completions(rest)| >= required
    {
      CountDecides(group, rest, required);
    }
    var worst := WorstCase(group);
    assert Ends(group, worst) <==> |Succeeded(group)| >= required;
  }

  /** Enough successes are out of reach exactly when the set is closed and even all
      outstanding branches together would not do. */
  lemma NeverIffTooFew(group: SourceSet)
    requires Counted(group) && group.policy != All && ValidPolicy(group.policy)
    ensures NeverSatisfied(group) <==>
              group.openSources <= 0 && |Succeeded(group)| + group.expected - |group.outcomes| < Threshold(group.policy)
  {
    var required := Threshold(group.policy);
    forall rest | Continuation(group, rest)
      ensures Ends(group, rest) <==> |Succeeded(group)| + |Completions(rest)| >= required
      ensures group.openSources <= 0 ==> |Completions(rest)| <= group.expected - |group.outcomes|
    {
      CountDecides(group, rest, required);
      if group.openSources <= 0 {
        CompletionsBounded(group, rest);
      }
    }
    OutstandingCount(group);
    var best := BestCase(group, if group.openSources > 0 then required else 0);
    assert Ends(group, best) <==> |Succeeded(group)| + |Completions(best)| >= required;
  }

  // ----- all -----

  lemma AllEnds(group: SourceSet, rest: map<nat, BranchPhase>)
    requires group.policy == All && Continuation(group, rest)
    ensures Ends(group, rest) <==>
              !HasFailure(group) && (forall id :: id in rest ==> rest[id] != BranchFailed && rest[id] != BranchCanceled)
  {
    var phases := PhasesOf(group) + rest;
    assert forall id :: id in group.outcomes ==> phases[id] == group.outcomes[id].phase;
    assert forall id :: id in rest ==> phases[id] == rest[id];
  }

  lemma NeverIffFailure(group: SourceSet)
    requires Counted(group) && group.policy == All
    ensures NeverSatisfied(group) <==> HasFailure(group)
  {
    forall rest | Continuation(group, rest)
      ensures Ends(group, rest) ==> !HasFailure(group)
    {
      AllEnds(group, rest);
    }
    var best := BestCase(group, 0);
    AllEnds(group, best);
  }

  lemma CertainIffWhole(group: SourceSet)
    requires Counted(group) && group.policy == All
    ensures CertainlySatisfied(group) <==> !HasFailure(group) && group.openSources <= 0 && Outstanding(group) == {}
  {
    hide HasFailure, Ends, Counted;
    if group.openSources > 0 || Outstanding(group) != {} {
      var id := NewID(group.outcomes.Keys + Elements(group.branches));
      var lost := Outstanding(group) + (if group.openSources > 0 then {id} else {});
      var worse := Turning(lost, BranchFailed);
      assert Continuation(group, worse);
      assert group.openSources > 0 ==> id in lost;
      var bad :| bad in lost;
      assert worse[bad] == BranchFailed;
      AllEnds(group, worse);
    } else {
      forall rest | Continuation(group, rest)
        ensures Ends(group, rest) <==> !HasFailure(group)
      {
        AllEnds(group, rest);
      }
      assert Continuation(group, map[]);
    }
  }

  // ----- the decision is exact -----

  /** A set is reported a success exactly when every way its outstanding branches may
      turn out satisfies the policy, a failure exactly when none does, and left
      undecided exactly when both can still happen. The one exception is a closed
      set with fewer branches than its quorum, which no outcome can satisfy: there
      the decision is an error instead of a failure. */
  lemma DecideIsExact(group: SourceSet, successes: seq<nat>)
    requires Counted(group) && ValidPolicy(group.policy) && Successes(group, successes)
    ensures var decision := Decide(group, successes);
            && (decision.None? <==>
                  group.openSources <= 0 && group.policy.Quorum? && group.policy.quorum > group.expected)
            && (decision.None? ==> NeverSatisfied(group))
            && (decision.Some? ==>
                  && (decision.value.ready && !decision.value.failed <==> CertainlySatisfied(group))
                  && (decision.value.ready && decision.value.failed <==> NeverSatisfied(group)))
  {
    if group.policy == All {
      OutstandingCount(group);
      NeverIffFailure(group);
      CertainIffWhole(group);
      hide CertainlySatisfied, NeverSatisfied, Counted, Successes, HasFailure;
    } else {
      CountIsExact(group, successes);
    }
  }

  lemma CountIsExact(group: SourceSet, successes: seq<nat>)
    requires Counted(group) && ValidPolicy(group.policy) && group.policy != All && Successes(group, successes)
    ensures var decision := Decide(group, successes);
            && (decision.None? <==>
                  group.openSources <= 0 && group.policy.Quorum? && group.policy.quorum > group.expected)
            && (decision.None? ==> NeverSatisfied(group))
            && (decision.Some? ==>
                  && (decision.value.ready && !decision.value.failed <==> CertainlySatisfied(group))
                  && (decision.value.ready && decision.value.failed <==> NeverSatisfied(group)))
  {
    hide CertainlySatisfied, NeverSatisfied, Successes, Succeeded, Outstanding, Counted;
    OutstandingCount(group);
    SucceededWithin(group);
    SuccessCount(group, successes);
    CertainIffEnough(group);
    NeverIffTooFew(group);
  }

  lemma SucceededWithin(group: SourceSet)
    ensures |Succeeded(group)| <= |group.outcomes|
  {
    SubsetSize(Succeeded(group), group.outcomes.Keys);
  }

  // ----- whom any and quorum select -----

  /** The selection is the earliest successes, as many as the policy asks for. */
  lemma SelectsTheEarliest(group: SourceSet, successes: seq<nat>)
    requires Counted(group) && ValidPolicy(group.policy) && group.policy != All && Successes(group, successes)
    requires Decide(group, successes).Some? && Decide(group, successes).value.ready
    requires !Decide(group, successes).value.failed
    ensures var selected := Decide(group, successes).value.selected;
            && |selected| == Threshold(group.policy) == |Elements(selected)| && Elements(selected) <= Succeeded(group)
            && (forall chosen, other :: chosen in selected && other in Succeeded(group) - Elements(selected) ==>
                  Earlier(group.outcomes[chosen], group.outcomes[other]))
  {
    var count := Threshold(group.policy);
    InOrderIsDistinct(group.outcomes, successes);
    ElementsSize(successes[..count]);
    assert successes == successes[..count] + successes[count..];
  }

  ghost predicate LaterThanAll(completion: int, outcomes: map<nat, BranchOutcome>) {
    forall id :: id in outcomes ==> outcomes[id].completion < completion
  }

  /** The same set with more outcomes, wherever they come in the order of completion. */
  ghost predicate Grows(group: SourceSet, more: SourceSet) {
    && more.policy == group.policy
    && (forall id :: id in group.outcomes ==> id in more.outcomes && more.outcomes[id] == group.outcomes[id])
  }

  /** The same set with more outcomes, all of them later than those it had. */
  ghost predicate Extends(group: SourceSet, more: SourceSet) {
    && Grows(group, more)
    && (forall id :: id in more.outcomes && id !in group.outcomes ==>
          LaterThanAll(more.outcomes[id].completion, group.outcomes))
  }

  /** No success that came in later completed before one of these. */
  ghost predicate NoneOvertakes(group: SourceSet, more: SourceSet, selected: seq<nat>) {
    forall chosen, other :: chosen in selected && other in Succeeded(more) && other !in group.outcomes ==>
      chosen in more.outcomes && Earlier(more.outcomes[chosen], more.outcomes[other])
  }

  lemma {:induction false} SuccessesAgree(group: SourceSet, more: SourceSet, successes: seq<nat>, later: seq<nat>,
                                          count: nat)
    requires Grows(group, more) && ByCompletion(group, successes) && ByCompletion(more, later) && count <= |successes|
    requires NoneOvertakes(group, more, successes[..count])
    ensures |successes| <= |later| && later[..count] == successes[..count]
  {
    InOrderIsDistinct(more.outcomes, later);
    InOrderIsDistinct(group.outcomes, successes);
    if count == 0 {
      MoreSuccesses(group, more, successes, later);
    } else {
      assert successes[..count] == successes[..count - 1] + [successes[count - 1]];
      SuccessesAgree(group, more, successes, later, count - 1);
      assert forall k :: 0 <= k < count - 1 ==> later[k] == later[..count - 1][k] == successes[k];
      NextAgrees(group, more, successes, later, count - 1);
    }
  }

  lemma MoreSuccesses(group: SourceSet, more: SourceSet, successes: seq<nat>, later: seq<nat>)
    requires Grows(group, more) && ByCompletion(group, successes) && ByCompletion(more, later)
    ensures |successes| <= |later|
  {
    InOrderIsDistinct(more.outcomes, later);
    InOrderIsDistinct(group.outcomes, successes);
    ElementsSize(later);
    ElementsSize(successes);
    SubsetSize(Elements(successes), Elements(later));
  }

  lemma NextAgrees(group: SourceSet, more: SourceSet, successes: seq<nat>, later: seq<nat>, next: nat)
    requires Grows(group, more) && ByCompletion(group, successes) && ByCompletion(more, later)
    requires next < |successes| <= |later| && forall k :: 0 <= k < next ==> later[k] == successes[k]
    requires NoneOvertakes(group, more, [successes[next]])
    ensures later[next] == successes[next]
  {
    InOrderIsDistinct(more.outcomes, later);
    InOrderIsDistinct(group.outcomes, successes);
    var id, other := successes[next], later[next];
    assert id in Elements(successes) && id in Succeeded(more);
    assert id in Elements(later);
    var at :| 0 <= at < |later| && later[at] == id;
    assert at >= next;
    assert other in Elements(later);
    if other in group.outcomes {
      assert other in Succeeded(group) && other in Elements(successes);
      var k :| 0 <= k < |successes| && successes[k] == other;
      assert k >= next;
    }
  }

  /** A decision of any or quorum for success stands whatever else comes in, whether the set
      is still open or not; and it stands for the same branches exactly if none that comes
      in later had completed before one of them. */
  lemma SelectionStandsIff(group: SourceSet, more: SourceSet, successes: seq<nat>, later: seq<nat>)
    requires Counted(group) && Counted(more) && ValidPolicy(group.policy) && group.policy != All && Grows(group, more)
    requires ByCompletion(group, successes) && ByCompletion(more, later)
    requires Decide(group, successes).Some? && Decide(group, successes).value.ready
    requires !Decide(group, successes).value.failed
    ensures Decide(more, later).Some? && Decide(more, later).value.ready && !Decide(more, later).value.failed
    ensures Decide(more, later) == Decide(group, successes) <==>
      NoneOvertakes(group, more, Decide(group, successes).value.selected)
  {
    hide Counted, NoneOvertakes, ByCompletion, Grows;
    var count := Threshold(group.policy);
    PolicyStays(group, more);
    MoreSuccesses(group, more, successes, later);
    SucceededSize(more, later);
    if NoneOvertakes(group, more, successes[..count]) {
      SuccessesAgree(group, more, successes, later, count);
    }
    if later[..count] == successes[..count] {
      SameSelection(group, more, successes, later, count);
    }
  }

  lemma PolicyStays(group: SourceSet, more: SourceSet)
    requires Grows(group, more)
    ensures more.policy == group.policy
  {
  }

  lemma SucceededSize(group: SourceSet, successes: seq<nat>)
    requires Counted(group) && group.policy != All && ByCompletion(group, successes)
    ensures |successes| <= |group.outcomes| <= group.expected
  {
    SuccessCount(group, successes);
    SucceededWithin(group);
    OutstandingCount(group);
  }

  /** Whoever is selected again comes before all others. */
  lemma SameSelection(group: SourceSet, more: SourceSet, successes: seq<nat>, later: seq<nat>, count: nat)
    requires ByCompletion(group, successes) && ByCompletion(more, later) && count <= |successes| && count <= |later|
    requires later[..count] == successes[..count]
    ensures NoneOvertakes(group, more, successes[..count])
  {
    assert forall k :: 0 <= k < count ==> later[k] == later[..count][k] == successes[k];
    forall chosen, other | chosen in successes[..count] && other in Succeeded(more) && other !in group.outcomes
      ensures chosen in more.outcomes && Earlier(more.outcomes[chosen], more.outcomes[other])
    {
      assert other in Elements(later) && other !in successes;
      var i :| 0 <= i < count && later[i] == chosen;
      var j :| 0 <= j < |later| && later[j] == other;
    }
  }

  /** So a decision for any or quorum stands when all that comes in later completed later. */
  lemma LaterOutcomesChangeNothing(group: SourceSet, more: SourceSet, successes: seq<nat>, later: seq<nat>)
    requires Counted(group) && Counted(more) && ValidPolicy(group.policy) && group.policy != All && Extends(group, more)
    requires ByCompletion(group, successes) && ByCompletion(more, later)
    requires Decide(group, successes).Some? && Decide(group, successes).value.ready
    requires !Decide(group, successes).value.failed
    ensures Decide(more, later) == Decide(group, successes)
  {
    SelectionStandsIff(group, more, successes, later);
  }
}
