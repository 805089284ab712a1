/** What became of each activation over a whole run: its record and its outcome hold just
    what its commit gave, and that is what is sent on (workflow/activation.go,
    workflow/settle.go, workflow/settle_checkpoint.go). */
module Results {
  import opened Options
  import opened Topology
  import opened RunState
  import opened Joins
  import opened Conservation
  import opened Scheduling
  import opened SchedulingSafety
  import opened RoutingSafety
  import opened SchedulingLaws
  import opened OpenSets
  import Codec
  import opened SchedulingRuns
  import opened JoinLaws

  /** The commits that ended activations, up to a state; a resume goes on with those its
      checkpoint holds. */
  ghost function Ends(compiled: Compiled, states: seq<RunState>, turns: seq<Turn>, i: nat): map<nat, Ran>
    requires i < |states| == |turns| + 1
  {
    if i == 0 then map[]
    else
      match turns[i - 1]
      case Does(operation) =>
        var earlier := Ends(compiled, states, turns, i - 1);
        if Commits(operation)
          && Performed(compiled, states[i - 1], operation) then earlier[operation.ran.activation.id := operation.ran]
        else earlier
      case Restarts(checkpoint, _) => if checkpoint < i then Ends(compiled, states, turns, checkpoint) else map[]
  }

  predicate Commits(operation: Operation) {
    operation.CommitStandalone? || operation.CommitOne?
  }

  /** A cause is kept as it was, or as its text. */
  predicate SameCause(kept: Option<Cause>, cause: Option<Cause>) {
    kept == cause || kept == Codec.PlainCause(cause)
  }

  /** How what ran ended: well or skipped without an error, canceled if the error says so. */
  predicate EndedAs(ran: Ran, phase: Phase) {
    && (phase == Completed <==> ran.cause.None? && !ran.result.skipped)
    && (phase == Skipped <==> ran.cause.None? && ran.result.skipped)
    && (phase == Canceled <==> ran.cause.Some? && ran.cause.value.canceled)
    && (phase == Failed <==> ran.cause.Some? && !ran.cause.value.canceled)
  }

  predicate BranchEndedAs(ran: Ran, phase: BranchPhase) {
    && (phase == BranchCompleted || phase == BranchSuperseded <==> ran.cause.None? && !ran.result.skipped)
    && (phase == BranchSkipped <==> ran.cause.None? && ran.result.skipped)
    && (phase == BranchCanceled <==> ran.cause.Some? && ran.cause.value.canceled)
    && (phase == BranchFailed <==> ran.cause.Some? && !ran.cause.value.canceled)
  }

  /** The record of an activation that a commit ended says how it ended; any other one is
      still to end, or was canceled when its set was left. */
  predicate RecordAgrees(record: ActivationRecord, ended: map<nat, Ran>, id: nat) {
    if id !in ended then (Pending(record.phase) || record.phase == Canceled) && !record.hasResult
    else
      var ran := ended[id];
      && ran.activation == record.activation && EndedAs(ran, record.phase)
      && record.hasResult == ran.cause.None? && (record.hasResult ==> record.result == ran.result)
      && record.result.skipped == ran.result.skipped && SameCause(record.cause, ran.cause)
  }

  /** So does the outcome of a branch, with the output whole and the completion number. */
  predicate OutcomeAgrees(outcome: BranchOutcome, ended: map<nat, Ran>, branch: nat) {
    if branch !in ended then outcome.phase == BranchCanceled && outcome.result == NO_RESULT
    else
      var ran := ended[branch];
      && outcome.activation == ran.activation && outcome.result == ran.result
      && SameCause(outcome.cause, ran.cause) && outcome.completion == ran.completion
      && BranchEndedAs(ran, outcome.phase)
  }

  ghost predicate Recorded(state: RunState, ended: map<nat, Ran>) {
    && (forall id :: id in ended ==> id in state.activations)
    && (forall id :: id in state.activations ==> RecordAgrees(state.activations[id], ended, id))
    && (forall id, branch :: id in state.sourceSets && branch in state.sourceSets[id].outcomes ==>
          OutcomeRecorded(state, ended, id, branch))
  }

  ghost predicate OutcomeRecorded(state: RunState, ended: map<nat, Ran>, id: nat, branch: nat)
    requires id in state.sourceSets && branch in state.sourceSets[id].outcomes
  {
    && branch in state.activations
    && OutcomeAgrees(state.sourceSets[id].outcomes[branch], ended, branch)
    && state.sourceSets[id].outcomes[branch].cause == state.activations[branch].cause
  }

  // ----- what ends nothing -----

  /** The record of an activation that has ended does not change, and none ends. */
  predicate RecordStands(before: ActivationRecord, after: ActivationRecord) {
    if Pending(before.phase) then Pending(after.phase) && (after.hasResult ==> before.hasResult)
    else
      && after.activation == before.activation && after.phase == before.phase && after.result == before.result
      && after.hasResult == before.hasResult && after.cause == before.cause
  }

  predicate OutcomeStands(before: BranchOutcome, after: BranchOutcome) {
    && after.activation == before.activation && after.result == before.result && after.cause == before.cause
    && after.completion == before.completion
    && (after.phase == before.phase || (before.phase == BranchCompleted && after.phase == BranchSuperseded))
  }

  ghost predicate RecordsStand(before: RunState, after: RunState) {
    && (forall id :: id in before.activations ==>
          id in after.activations && RecordStands(before.activations[id], after.activations[id]))
    && (forall id :: id in after.activations && id !in before.activations ==>
          Pending(after.activations[id].phase) && !after.activations[id].hasResult)
  }

  ghost predicate OutcomesStand(before: RunState, after: RunState) {
    forall id, branch :: id in after.sourceSets && branch in after.sourceSets[id].outcomes ==>
      && id in before.sourceSets && branch in before.sourceSets[id].outcomes
      && OutcomeStands(before.sourceSets[id].outcomes[branch], after.sourceSets[id].outcomes[branch])
  }

  /** An outcome belongs to an activation that has ended. */
  ghost predicate OutcomesEnded(state: RunState) {
    forall id, branch :: id in state.sourceSets && branch in state.sourceSets[id].outcomes ==>
      branch in state.activations && !Pending(state.activations[branch].phase)
  }

  lemma StandingKeeps(before: RunState, after: RunState, ended: map<nat, Ran>)
    requires Recorded(before, ended) && OutcomesEnded(before)
    requires RecordsStand(before, after) && OutcomesStand(before, after)
    ensures Recorded(after, ended)
  {
    hide OutcomeAgrees;
    forall id | id in after.activations
      ensures RecordAgrees(after.activations[id], ended, id)
    {
      if id in before.activations {
        assert RecordAgrees(before.activations[id], ended, id);
      }
    }
    hide RecordAgrees;
    forall id, branch | id in after.sourceSets && branch in after.sourceSets[id].outcomes
      ensures OutcomeRecorded(after, ended, id, branch)
    {
      assert OutcomeRecorded(before, ended, id, branch);
      StandingAgrees(before.sourceSets[id].outcomes[branch], after.sourceSets[id].outcomes[branch], ended, branch);
    }
  }

  lemma StandingAgrees(before: BranchOutcome, after: BranchOutcome, ended: map<nat, Ran>, branch: nat)
    requires OutcomeAgrees(before, ended, branch) && OutcomeStands(before, after)
    ensures OutcomeAgrees(after, ended, branch)
  {
  }

  lemma ConservedHasEnded(compiled: Compiled, state: RunState)
    requires Conserved(compiled, state)
    ensures OutcomesEnded(state)
  {
    SetsHaveEnded(state);
  }

  /** No set has been settled. */
  ghost predicate NoneSettled(before: RunState, after: RunState) {
    forall id :: id in after.sourceSets && after.sourceSets[id].settled ==>
      id in before.sourceSets && before.sourceSets[id].settled
  }

  ghost predicate Stands(before: RunState, after: RunState) {
    RecordsStand(before, after) && OutcomesStand(before, after) && NoneSettled(before, after)
  }

  lemma RecordsOnly(state: RunState, operation: Operation)
    ensures operation.StartOne? && StartActivation(state, operation.id).Ok? ==>
      Stands(state, StartActivation(state, operation.id).value)
    ensures operation.RetryOne? && RetryActivation(state, operation.id, operation.input).Ok? ==>
      Stands(state, RetryActivation(state, operation.id, operation.input).value)
    ensures operation.InterruptOne? && InterruptActivation(state, operation.id).Ok? ==>
      Stands(state, InterruptActivation(state, operation.id).value)
  {
  }

  lemma ResumingStands(state: RunState, resolved: bool)
    ensures Stands(state, PrepareResume(state, resolved))
  {
  }

  lemma FiringStands(state: RunState, key: JoinKey, input: string)
    requires QueueSound(state)
    ensures Stands(state, MaterializeJoin(state, key, input))
  {
    hide TrackCorrelation, Bump, QueueIDs, QueueCount;
    assert state.nextActSeq !in state.activations;
  }

  lemma PullingStands(compiled: Compiled, state: RunState, iter: nat, value: string, cursor: Option<string>)
    requires QueueSound(state) && PullItem(compiled, state, iter, value, cursor).Ok?
    ensures Stands(state, PullItem(compiled, state, iter, value, cursor).value)
  {
    hide NextCorrelation, TrackCorrelation, Bump, QueueIDs, QueueCount;
    assert state.nextActSeq !in state.activations;
  }

  /** Nothing but flags, selections and iterators of sets has changed. */
  lemma FlagsStand(before: RunState, after: RunState)
    requires after.activations == before.activations && after.sourceSets.Keys == before.sourceSets.Keys
    requires forall id :: id in before.sourceSets ==>
      after.sourceSets[id].outcomes == before.sourceSets[id].outcomes
        && after.sourceSets[id].settled == before.sourceSets[id].settled
    ensures Stands(before, after)
  {
  }

  lemma GroupStands(before: RunState, after: RunState, id: nat)
    requires after.activations == before.activations && id in before.sourceSets && id in after.sourceSets
    requires after.sourceSets == before.sourceSets[id := after.sourceSets[id]]
    requires after.sourceSets[id].outcomes == before.sourceSets[id].outcomes
    ensures RecordsStand(before, after) && OutcomesStand(before, after)
    ensures after.sourceSets[id].settled == before.sourceSets[id].settled ==> Stands(before, after)
  {
  }

  lemma DecidingStands(state: RunState, id: nat, selected: seq<nat>)
    requires id in state.sourceSets
    ensures Stands(state, DecideSet(state, id, selected))
  {
    hide Stands, ClosedFor;
    var after := DecideSet(state, id, selected);
    assert after.activations == state.activations && id in after.sourceSets;
    assert after.sourceSets == state.sourceSets[id := after.sourceSets[id]];
    hide DecideSet, CloseIterSources;
    GroupStands(state, after, id);
  }

  lemma FailingStands(state: RunState, id: nat)
    requires id in state.sourceSets
    ensures Stands(state, FailSet(state, id))
  {
    hide Stands, ClosedFor;
    var after := FailSet(state, id);
    assert after.activations == state.activations && id in after.sourceSets;
    assert after.sourceSets == state.sourceSets[id := after.sourceSets[id]];
    hide FailSet, CloseIterSources;
    GroupStands(state, after, id);
  }

  lemma SettlingStands(state: RunState, id: nat)
    requires id in state.sourceSets
    ensures RecordsStand(state, SettleSet(state, id)) && OutcomesStand(state, SettleSet(state, id))
  {
    hide Stands, RecordsStand, OutcomesStand;
    GroupStands(state, SettleSet(state, id), id);
  }

  lemma ExhaustingStands(state: RunState, iter: nat)
    requires CloseIter(state, iter).Ok?
    ensures Stands(state, CloseIter(state, iter).value)
  {
    hide Stands;
    FlagsStand(state, CloseIter(state, iter).value);
  }

  lemma FailingIterStands(compiled: Compiled, state: RunState, iter: nat, cause: Cause)
    requires Conserved(compiled, state) && iter in state.iterSources
    ensures state.iterSources[iter].sourceSet in state.sourceSets && Stands(state, FailIter(state, iter, cause))
  {
    Codec.IterHasSet(compiled, state, iter);
    hide Stands, Conserved, FailIter;
    FailedSetStands(state, iter, cause);
  }

  lemma FailedSetStands(state: RunState, iter: nat, cause: Cause)
    requires iter in state.iterSources && state.iterSources[iter].sourceSet in state.sourceSets
    ensures Stands(state, FailIter(state, iter, cause))
  {
    hide Stands, ClosedFor;
    var id, after := state.iterSources[iter].sourceSet, FailIter(state, iter, cause);
    assert after.activations == state.activations && id in after.sourceSets;
    assert after.sourceSets == state.sourceSets[id := after.sourceSets[id]];
    hide FailIter, CloseIterSources;
    GroupStands(state, after, id);
  }

  lemma SupersedingStands(state: RunState, id: nat, branch: nat)
    requires id in state.sourceSets && CompletedButUnselected(state.sourceSets[id], branch)
    ensures Stands(state, Supersede(state, id, branch))
  {
  }

  lemma ClosingStands(compiled: Compiled, state: RunState, source: Activation)
    requires CloseJoinExpectations(compiled, state, source, map[]).Ok?
    ensures Stands(state, CloseJoinExpectations(compiled, state, source, map[]).value)
  {
    hide Stands, CloseAll;
    ClosingOnlyBuckets(compiled, state, source, Targets(compiled.edges, source.node), map[]);
    FlagsStand(state, CloseJoinExpectations(compiled, state, source, map[]).value);
  }

  lemma SpreadingStands(before: RunState, after: RunState)
    requires Spreads(before, after, None) && OnlyUnstarted(before, after)
    ensures Stands(before, after)
  {
  }

  lemma RoutingStands(compiled: Compiled, state: RunState, source: Activation, output: string, dispatch: Dispatch)
    requires Building(compiled, state, None, 0, 0) && state.nextIterSeq > 0 && source.id in state.activations
    requires Route(compiled, state, source, output, dispatch).Ok?
    ensures Stands(state, Route(compiled, state, source, output, dispatch).value)
  {
    hide Stands, Route, Building, Spreads, OnlyUnstarted;
    RouteBuilds(compiled, state, source, output, dispatch);
    RouteOpens(compiled, state, source, output, dispatch);
    SpreadingStands(state, Route(compiled, state, source, output, dispatch).value);
  }

  lemma StandsOn(first: RunState, second: RunState, third: RunState)
    requires Stands(first, second) && Stands(second, third)
    ensures Stands(first, third)
  {
  }

  lemma ReleasingStands(compiled: Compiled, state: RunState, id: nat, branch: nat, dispatch: Dispatch)
    requires Wired(compiled) && Conserved(compiled, state) && id in state.sourceSets
    requires branch in state.sourceSets[id].outcomes && ReleaseBranch(compiled, state, id, branch, dispatch).Ok?
    ensures Stands(state, ReleaseBranch(compiled, state, id, branch, dispatch).value)
  {
    var outcome := state.sourceSets[id].outcomes[branch];
    OutcomeFacts(compiled, state, id, branch);
    hide QueueSound, SetsSound, ItersSound, RoutingSound, JoinsSound, Route, Stands;
    if outcome.committed {
      FlagsStand(state, state);
    } else {
      var routed := Route(compiled, state, outcome.activation, outcome.result.output, dispatch).value;
      var after := ReleaseBranch(compiled, state, id, branch, dispatch).value;
      ConservedBuilds(compiled, state);
      PositiveIters(compiled, state);
      RouteBuilds(compiled, state, outcome.activation, outcome.result.output, dispatch);
      RoutingStands(compiled, state, outcome.activation, outcome.result.output, dispatch);
      CommittingStands(state, routed, id, branch, after);
      StandsOn(state, routed, after);
    }
  }

  lemma CommittingStands(state: RunState, routed: RunState, id: nat, branch: nat, after: RunState)
    requires Spreads(state, routed, None) && id in state.sourceSets && branch in state.sourceSets[id].outcomes
    requires var group, outcome := state.sourceSets[id], state.sourceSets[id].outcomes[branch];
      after == routed.(sourceSets :=
        routed.sourceSets[id := group.(outcomes := group.outcomes[branch := outcome.(committed := true)])])
    ensures Stands(routed, after)
  {
  }

  // ----- what ends an activation -----

  /** The record a commit leaves. */
  lemma FinishRecords(state: RunState, ran: Ran, ended: map<nat, Ran>)
    requires Recorded(state, ended) && OutcomesEnded(state) && Finish(state, ran).Ok?
    requires ran.activation.id in state.activations && state.activations[ran.activation.id].activation == ran.activation
    ensures var finished := Finish(state, ran).value;
            Recorded(finished, ended[ran.activation.id := ran]) && finished.sourceSets == state.sourceSets
  {
    hide OutcomeAgrees;
    var finished, more := Finish(state, ran).value, ended[ran.activation.id := ran];
    forall id | id in finished.activations
      ensures RecordAgrees(finished.activations[id], more, id)
    {
      assert RecordAgrees(state.activations[id], ended, id);
    }
    hide RecordAgrees;
    forall id, branch | id in finished.sourceSets && branch in finished.sourceSets[id].outcomes
      ensures OutcomeRecorded(finished, more, id, branch)
    {
      assert OutcomeRecorded(state, ended, id, branch);
      OtherEnds(finished.sourceSets[id].outcomes[branch], ended, branch, ran);
    }
  }

  lemma OtherEnds(outcome: BranchOutcome, ended: map<nat, Ran>, branch: nat, ran: Ran)
    requires OutcomeAgrees(outcome, ended, branch) && branch != ran.activation.id
    ensures OutcomeAgrees(outcome, ended[ran.activation.id := ran], branch)
  {
  }

  lemma StandaloneRecords(compiled: Compiled, state: RunState, ran: Ran, dispatch: Dispatch, ended: map<nat, Ran>)
    requires Wired(compiled) && Conserved(compiled, state) && Recorded(state, ended)
    requires Enabled(compiled, state, CommitStandalone(ran, dispatch))
    requires CommitActivation(compiled, state, ran, dispatch).Ok?
    ensures Recorded(CommitActivation(compiled, state, ran, dispatch).value, ended[ran.activation.id := ran])
  {
    ConservedHasEnded(compiled, state);
    hide QueueSound, SetsSound, ItersSound, RoutingSound, JoinsSound, Recorded;
    hide FinishedAlone, Stands, OutcomesEnded;
    FinishedIsAlone(state, ran);
    FinishingKeeps(compiled, state, ran, Finish(state, ran).value);
    HeadIsTracked(state);
    FinishRecords(state, ran, ended);
    SetsHaveEnded(Finish(state, ran).value);
    StandaloneStands(compiled, state, ran, dispatch);
    hide Finish, CommitActivation;
    StandsKeep(Finish(state, ran).value, CommitActivation(compiled, state, ran, dispatch).value,
      ended[ran.activation.id := ran]);
  }

  lemma StandaloneStands(compiled: Compiled, state: RunState, ran: Ran, dispatch: Dispatch)
    requires Wired(compiled) && Conserved(compiled, state) && Enabled(compiled, state, CommitStandalone(ran, dispatch))
    requires CommitActivation(compiled, state, ran, dispatch).Ok?
    ensures Finish(state, ran).Ok? && Finish(state, ran).value.sourceSets == state.sourceSets
    ensures Stands(Finish(state, ran).value, CommitActivation(compiled, state, ran, dispatch).value)
  {
    FinishingKeepsSets(state, ran);
    hide QueueSound, SetsSound, ItersSound, RoutingSound, JoinsSound, Finish, Route, CloseJoinExpectations;
    hide FinishedAlone, Stands;
    var finished := Finish(state, ran).value;
    FinishedIsAlone(state, ran);
    FinishingKeeps(compiled, state, ran, finished);
    FinishedPlace(state, ran, finished);
    if ran.result.skipped {
      ClosingStands(compiled, finished, ran.activation);
    } else {
      ConservedBuilds(compiled, finished);
      PositiveIters(compiled, finished);
      RoutingStands(compiled, finished, ran.activation, ran.result.output, dispatch);
    }
  }

  lemma FinishingKeepsSets(state: RunState, ran: Ran)
    ensures Finish(state, ran).Ok? ==>
      Finish(state, ran).value.sourceSets == state.sourceSets
        && Finish(state, ran).value.nextCompletion == state.nextCompletion
  {
  }

  lemma HeadIsTracked(state: RunState)
    requires QueueSound(state) && state.queue != []
    ensures state.queue[0].id in state.activations
    ensures state.activations[state.queue[0].id].activation == state.queue[0]
  {
    assert TrackedAs(state.activations, state.queue[0]);
  }

  lemma SetsHaveEnded(state: RunState)
    requires SetsSound(state, None, 0)
    ensures OutcomesEnded(state)
  {
    forall id, branch | id in state.sourceSets && branch in state.sourceSets[id].outcomes
      ensures branch in state.activations && !Pending(state.activations[branch].phase)
    {
      assert SetSound(state.activations, id, state.sourceSets[id], 0);
      assert OutcomeSound(state.activations, state.sourceSets[id], branch);
    }
  }

  lemma StandsKeep(before: RunState, after: RunState, ended: map<nat, Ran>)
    requires Recorded(before, ended) && OutcomesEnded(before) && Stands(before, after)
    ensures Recorded(after, ended)
  {
    hide Recorded, OutcomesEnded, RecordsStand, OutcomesStand;
    StandingKeeps(before, after, ended);
  }

  lemma FinishedCause(state: RunState, ran: Ran)
    requires Finish(state, ran).Ok?
    ensures var finished := Finish(state, ran).value;
            && finished.sourceSets == state.sourceSets
            && ran.activation.id in finished.activations && finished.activations[ran.activation.id].cause == ran.cause
  {
  }

  lemma BranchRecords(compiled: Compiled, state: RunState, ran: Ran, ended: map<nat, Ran>)
    requires Conserved(compiled, state) && Recorded(state, ended)
    requires BranchAtHead(state, ran) && CommitBranch(state, ran).Ok?
    ensures Recorded(CommitBranch(state, ran).value, ended[ran.activation.id := ran])
  {
    ConservedHasEnded(compiled, state);
    hide QueueSound, SetsSound, ItersSound, RoutingSound, JoinsSound;
    HeadIsTracked(state);
    FinishRecords(state, ran, ended);
    FinishedCause(state, ran);
    hide Conserved, Finish, OutcomesEnded, Recorded;
    NewOutcomeRecorded(state, Finish(state, ran).value, ran, CommitBranch(state, ran).value,
      ended[ran.activation.id := ran]);
  }

  lemma NewOutcomeRecorded(state: RunState, finished: RunState, ran: Ran, after: RunState, ended: map<nat, Ran>)
    requires Finish(state, ran) == Ok(finished) && CommitBranch(state, ran) == Ok(after)
    requires finished.sourceSets == state.sourceSets
    requires Recorded(finished, ended) && ran.activation.id in ended && ended[ran.activation.id] == ran
    requires ran.activation.id in finished.activations && finished.activations[ran.activation.id].cause == ran.cause
    ensures Recorded(after, ended)
  {
    hide Finish, RecordAgrees, OutcomeAgrees, BranchPhaseOf;
    forall id, branch | id in after.sourceSets && branch in after.sourceSets[id].outcomes
      ensures OutcomeRecorded(after, ended, id, branch)
    {
      if branch == ran.activation.id && id == ran.activation.sourceSet.value {
        NewOutcomeAgrees(ran, ended);
      } else {
        assert OutcomeRecorded(finished, ended, id, branch);
      }
    }
  }

  lemma NewOutcomeAgrees(ran: Ran, ended: map<nat, Ran>)
    requires ran.activation.id in ended && ended[ran.activation.id] == ran
    ensures OutcomeAgrees(
              BranchOutcome(ran.activation, ran.result, ran.cause, BranchPhaseOf(ran), ran.completion, false),
              ended, ran.activation.id)
  {
  }

  lemma CancelRecords(state: RunState, id: nat, ended: map<nat, Ran>)
    requires Recorded(state, ended) && OutcomesEnded(state) && id in state.sourceSets && CancelNext(state, id).Ok?
    ensures Recorded(CancelNext(state, id).value, ended)
  {
    var index := NextUnselected(state.queue, id, state.sourceSets[id].selected);
    if index < |state.queue| {
      hide NextUnselected, Recorded, OutcomesEnded;
      CanceledRecords(state, id, index, ended);
    }
  }

  lemma CanceledRecords(state: RunState, id: nat, index: nat, ended: map<nat, Ran>)
    requires Recorded(state, ended) && OutcomesEnded(state) && id in state.sourceSets && index < |state.queue|
    requires CancelAt(state, id, index).Ok?
    ensures Recorded(CancelAt(state, id, index).value, ended)
  {
    CanceledHasNotEnded(state, id, index, ended);
    var after := CancelAt(state, id, index).value;
    forall other | other in after.activations
      ensures RecordAgrees(after.activations[other], ended, other)
    {
      CanceledRecordAgrees(state, id, index, ended, other);
    }
    forall other, branch | other in after.sourceSets && branch in after.sourceSets[other].outcomes
      ensures OutcomeRecorded(after, ended, other, branch)
    {
      CanceledOutcomeRecorded(state, id, index, ended, other, branch);
    }
    hide RecordAgrees, OutcomeRecorded;
  }

  lemma CanceledRecordAgrees(state: RunState, id: nat, index: nat, ended: map<nat, Ran>, other: nat)
    requires Recorded(state, ended) && id in state.sourceSets && index < |state.queue|
    requires CancelAt(state, id, index).Ok? && state.queue[index].id !in ended
    requires other in CancelAt(state, id, index).value.activations
    ensures RecordAgrees(CancelAt(state, id, index).value.activations[other], ended, other)
  {
    hide OutcomeRecorded;
    assert RecordAgrees(state.activations[other], ended, other);
  }

  lemma CanceledOutcomeRecorded(state: RunState, id: nat, index: nat, ended: map<nat, Ran>, other: nat, branch: nat)
    requires Recorded(state, ended) && OutcomesEnded(state) && id in state.sourceSets && index < |state.queue|
    requires CancelAt(state, id, index).Ok? && state.queue[index].id !in ended
    requires var after := CancelAt(state, id, index).value;
             other in after.sourceSets && branch in after.sourceSets[other].outcomes
    ensures OutcomeRecorded(CancelAt(state, id, index).value, ended, other, branch)
  {
    hide OutcomeAgrees, RecordAgrees;
    var after, item := CancelAt(state, id, index).value, state.queue[index].id;
    if other == id && branch == item {
      CanceledAgrees(after.sourceSets[id].outcomes[item], ended, item);
    } else {
      assert OutcomeRecorded(state, ended, other, branch);
    }
  }

  lemma CanceledHasNotEnded(state: RunState, id: nat, index: nat, ended: map<nat, Ran>)
    requires Recorded(state, ended) && id in state.sourceSets && index < |state.queue|
    requires CancelAt(state, id, index).Ok?
    ensures state.queue[index].id !in ended
  {
    hide OutcomeRecorded;
    assert RecordAgrees(state.activations[state.queue[index].id], ended, state.queue[index].id);
  }

  lemma CanceledAgrees(outcome: BranchOutcome, ended: map<nat, Ran>, branch: nat)
    requires branch !in ended && outcome.phase == BranchCanceled && outcome.result == NodeResult("", false)
    ensures OutcomeAgrees(outcome, ended, branch)
  {
  }

  // ----- over a whole run -----

  lemma PerformRecords(compiled: Compiled, state: RunState, operation: Operation, ended: map<nat, Ran>)
    requires Wired(compiled) && Performed(compiled, state, operation) && Recorded(state, ended)
    ensures Recorded(Perform(compiled, state, operation).value,
                     if Commits(operation) then ended[operation.ran.activation.id := operation.ran] else ended)
  {
    hide Recorded, Stands, Conserved, CommitActivation, CommitBranch, CancelNext, SettleSet, UnselectedTold, FullyDealt;
    match operation
    case CommitStandalone(ran, dispatch) => StandaloneRecords(compiled, state, ran, dispatch, ended);
    case CommitOne(ran) => BranchRecords(compiled, state, ran, ended);
    case CancelOne(id) =>
      ConservedHasEnded(compiled, state);
      CancelRecords(state, id, ended);
    case Settled(id) =>
      ConservedHasEnded(compiled, state);
      SettlingStands(state, id);
      StandingKeeps(state, SettleSet(state, id), ended);
    case _ =>
      hide Perform, Enabled;
      OtherRecords(compiled, state, operation, ended);
  }

  lemma OtherRecords(compiled: Compiled, state: RunState, operation: Operation, ended: map<nat, Ran>)
    requires Wired(compiled) && Performed(compiled, state, operation) && Recorded(state, ended) && !EndsOne(operation)
    ensures Recorded(Perform(compiled, state, operation).value, ended)
  {
    hide Recorded, Stands, Conserved, Perform, Enabled, OutcomesEnded;
    ConservedHasEnded(compiled, state);
    PerformStands(compiled, state, operation);
    StandsKeep(state, Perform(compiled, state, operation).value, ended);
  }

  predicate EndsOne(operation: Operation) {
    operation.CommitStandalone? || operation.CommitOne? || operation.CancelOne? || operation.Settled?
  }

  lemma PerformStands(compiled: Compiled, state: RunState, operation: Operation)
    requires Wired(compiled) && Performed(compiled, state, operation) && !EndsOne(operation)
    ensures Stands(state, Perform(compiled, state, operation).value)
  {
    hide Conserved, StartActivation, RetryActivation, InterruptActivation, PrepareResume, MaterializeJoin, PullItem;
    hide DecideSet, FailSet, Supersede, SettleSet, CloseIter, FailIter, CloseJoinExpectations, ReleaseBranch, Stands;
    ConservedQueue(compiled, state);
    hide QueueSound;
    match operation
    case StartOne(_) => RecordsOnly(state, operation);
    case RetryOne(_, _) => RecordsOnly(state, operation);
    case InterruptOne(_) => RecordsOnly(state, operation);
    case ResumeAll(resolved) => ResumingStands(state, resolved);
    case FireJoin(key, input) => FiringStands(state, key, input);
    case Decided(id, selected) => DecidingStands(state, id, selected);
    case FailedSet(id) => FailingStands(state, id);
    case SupersedeOne(id, branch) => SupersedingStands(state, id, branch);
    case CloseOne(id, branch) => ClosingStands(compiled, state, state.sourceSets[id].outcomes[branch].activation);
    case ReleaseOne(id, branch, dispatch) => ReleasingStands(compiled, state, id, branch, dispatch);
    case Pulled(iter, value, cursor) => PullingStands(compiled, state, iter, value, cursor);
    case Exhausted(iter) => ExhaustingStands(state, iter);
    case FailedIter(iter, cause) => FailingIterStands(compiled, state, iter, cause);
    case Permuted(_) => FlagsStand(state, Perform(compiled, state, operation).value);
    case Numbered(_) => FlagsStand(state, Perform(compiled, state, operation).value);
  }

  lemma ConservedQueue(compiled: Compiled, state: RunState)
    requires Conserved(compiled, state)
    ensures QueueSound(state)
  {
  }

  /** In every state of a run, over all crashes and resumes, records and outcomes hold what
      the commits gave that ended them. */
  lemma {:induction false} EveryStateIsRecorded(compiled: Compiled, states: seq<RunState>, turns: seq<Turn>, i: nat)
    requires Wired(compiled) && Reached(compiled, states, turns) && i < |states|
    ensures Recorded(states[i], Ends(compiled, states, turns, i))
    decreases i
  {
    hide Recorded, Conserved, Perform, Enabled, Resumption, Codec.Kept;
    if i == 0 {
      var runID, input :| states[0] == Initial(compiled, runID, input);
      InitialIsRecorded(compiled, runID, input);
    } else {
      assert Turned(compiled, states[..i], turns[i - 1], states[i]) && states[..i][i - 1] == states[i - 1];
      EveryStateIsConserved(compiled, states, turns, i - 1);
      match turns[i - 1]
      case Does(operation) =>
        EveryStateIsRecorded(compiled, states, turns, i - 1);
        if Performed(compiled, states[i - 1], operation) {
          PerformRecords(compiled, states[i - 1], operation, Ends(compiled, states, turns, i - 1));
        }
      case Restarts(checkpoint, resolved) =>
        EveryStateIsRecorded(compiled, states, turns, checkpoint);
        EveryStateIsSound(compiled, states, turns, checkpoint);
        ResumptionRecords(compiled, states[checkpoint], resolved, Ends(compiled, states, turns, checkpoint));
    }
  }

  lemma InitialIsRecorded(compiled: Compiled, runID: string, input: string)
    ensures Recorded(Initial(compiled, runID, input), map[])
  {
  }

  lemma ResumptionRecords(compiled: Compiled, state: RunState, resolved: bool, ended: map<nat, Ran>)
    requires Conserved(compiled, state) && Codec.Kept(state) && Recorded(state, ended)
    ensures Recorded(Resumption(state, resolved), ended)
  {
    var restored := Codec.Restore(Codec.Encode(state), state.routed, state.joined);
    Codec.RoundTrip(compiled, state);
    Codec.RestoredIsConserved(compiled, state);
    ConservedHasEnded(compiled, restored);
    hide Conserved, Codec.Kept, Codec.Encode, Codec.Restore, Codec.Plain, PrepareResume, Stands,
      OutcomesEnded, Recorded;
    PlainRecords(state, ended);
    SameRecorded(Codec.Plain(state), restored, ended);
    ResumingStands(restored, resolved);
    StandsKeep(restored, PrepareResume(restored, resolved), ended);
  }

  lemma SameRecorded(before: RunState, after: RunState, ended: map<nat, Ran>)
    requires Recorded(before, ended) && after.activations == before.activations && after.sourceSets == before.sourceSets
    ensures Recorded(after, ended)
  {
    hide OutcomeAgrees, RecordAgrees;
    forall id, branch | id in after.sourceSets && branch in after.sourceSets[id].outcomes
      ensures OutcomeRecorded(after, ended, id, branch)
    {
      assert OutcomeRecorded(before, ended, id, branch);
    }
  }

  lemma PlainRecords(state: RunState, ended: map<nat, Ran>)
    requires Recorded(state, ended)
    ensures Recorded(Codec.Plain(state), ended)
  {
    var plain := Codec.Plain(state);
    forall id | id in plain.activations
      ensures RecordAgrees(plain.activations[id], ended, id)
    {
      assert RecordAgrees(state.activations[id], ended, id);
      PlainRecordAgrees(state.activations[id], ended, id);
    }
    hide RecordAgrees, OutcomeAgrees;
    forall id, branch | id in plain.sourceSets && branch in plain.sourceSets[id].outcomes
      ensures OutcomeRecorded(plain, ended, id, branch)
    {
      assert OutcomeRecorded(state, ended, id, branch);
      PlainOutcomeAgrees(state.sourceSets[id].outcomes[branch], ended, branch);
    }
  }

  lemma PlainRecordAgrees(record: ActivationRecord, ended: map<nat, Ran>, id: nat)
    requires RecordAgrees(record, ended, id)
    ensures RecordAgrees(Codec.PlainRecord(record), ended, id)
  {
  }

  lemma PlainOutcomeAgrees(outcome: BranchOutcome, ended: map<nat, Ran>, branch: nat)
    requires OutcomeAgrees(outcome, ended, branch)
    ensures OutcomeAgrees(Codec.PlainOutcome(outcome), ended, branch)
  {
  }

  // ----- what that says -----

  /** An outcome and the record of its activation agree: on the cause, and on the result as
      far as the record still has one; a completed one always does. */
  lemma OutcomesAreResults(compiled: Compiled, states: seq<RunState>, turns: seq<Turn>, i: nat, id: nat, branch: nat)
    requires Wired(compiled) && Reached(compiled, states, turns) && i < |states|
    requires id in states[i].sourceSets && branch in states[i].sourceSets[id].outcomes
    ensures branch in states[i].activations
    ensures var outcome, record := states[i].sourceSets[id].outcomes[branch], states[i].activations[branch];
            && outcome.cause == record.cause && outcome.activation == record.activation
            && (record.hasResult ==> outcome.result == record.result)
            && (record.phase == Completed ==> record.hasResult)
  {
    hide Recorded, Conserved, Ends;
    EveryStateIsRecorded(compiled, states, turns, i);
    EveryStateIsConserved(compiled, states, turns, i);
    OutcomeFacts(compiled, states[i], id, branch);
    OutcomeIsResult(states[i], Ends(compiled, states, turns, i), id, branch);
  }

  lemma OutcomeIsResult(state: RunState, ended: map<nat, Ran>, id: nat, branch: nat)
    requires Recorded(state, ended) && id in state.sourceSets && branch in state.sourceSets[id].outcomes
    ensures branch in state.activations
    ensures var outcome, record := state.sourceSets[id].outcomes[branch], state.activations[branch];
            && outcome.cause == record.cause && (record.hasResult ==> outcome.result == record.result)
            && (record.phase == Completed ==> record.hasResult)
  {
    assert OutcomeRecorded(state, ended, id, branch);
    assert RecordAgrees(state.activations[branch], ended, branch);
  }

  /** What was sent is the output of the commit that ended its source. */
  ghost predicate SentAsEnded(sent: seq<Sending>, ended: map<nat, Ran>) {
    forall at :: 0 <= at < |sent| ==> EndedWith(sent[at], ended)
  }

  predicate EndedWith(sending: Sending, ended: map<nat, Ran>) {
    && sending.source.id in ended
    && var ran := ended[sending.source.id];
       ran.activation == sending.source && ran.cause.None? && !ran.result.skipped && sending.output == ran.result.output
  }

  lemma SendsAsEnded(compiled: Compiled, state: RunState, operation: Operation, ended: map<nat, Ran>)
    requires Performed(compiled, state, operation) && Recorded(state, ended)
    ensures var more := if Commits(operation) then ended[operation.ran.activation.id := operation.ran] else ended;
            SentAsEnded(Sends(compiled, state, operation), more)
    ensures Commits(operation) ==> operation.ran.activation.id !in ended
  {
    hide Recorded, Conserved, Unused, CommitActivation, CommitBranch;
    match operation
    case CommitStandalone(ran, _) => HeadHasNotEnded(compiled, state, ended);
    case CommitOne(ran) => HeadHasNotEnded(compiled, state, ended);
    case ReleaseOne(id, branch, dispatch) =>
      if branch in state.sourceSets[id].outcomes {
        OutcomeFacts(compiled, state, id, branch);
        ReleasedEndedWell(state, ended, id, branch);
      }
    case _ =>
  }

  lemma HeadHasNotEnded(compiled: Compiled, state: RunState, ended: map<nat, Ran>)
    requires Conserved(compiled, state) && Recorded(state, ended) && state.queue != []
    ensures state.queue[0].id !in ended
  {
    QueuedIsPending(state, 0);
    assert RecordAgrees(state.activations[state.queue[0].id], ended, state.queue[0].id);
  }

  lemma ReleasedEndedWell(state: RunState, ended: map<nat, Ran>, id: nat, branch: nat)
    requires Recorded(state, ended) && id in state.sourceSets && branch in state.sourceSets[id].outcomes
    requires state.sourceSets[id].outcomes[branch].activation.id == branch
    requires state.sourceSets[id].outcomes[branch].phase == BranchCompleted
    ensures branch in ended
    ensures var outcome, ran := state.sourceSets[id].outcomes[branch], ended[branch];
            && ran.activation == outcome.activation && ran.result == outcome.result
            && ran.cause.None? && !ran.result.skipped
  {
    assert OutcomeRecorded(state, ended, id, branch);
  }

  /** Over a whole run, with all its crashes and resumes: what an activation sends on,
      whether it is routed at once or as a branch of a released set, is the output of the
      very commit that ended it, and that commit neither failed nor was skipped. */
  lemma {:induction false} SentIsWhatEnded(compiled: Compiled, states: seq<RunState>, turns: seq<Turn>, i: nat)
    requires Wired(compiled) && Reached(compiled, states, turns) && i < |states|
    ensures SentAsEnded(Sent(compiled, states, turns, i), Ends(compiled, states, turns, i))
    decreases i
  {
    hide Recorded, Conserved, Perform, Enabled, Resumption, Sends, EndedWith;
    if i > 0 {
      assert Turned(compiled, states[..i], turns[i - 1], states[i]) && states[..i][i - 1] == states[i - 1];
      match turns[i - 1]
      case Does(operation) =>
        SentIsWhatEnded(compiled, states, turns, i - 1);
        EveryStateIsRecorded(compiled, states, turns, i - 1);
        var sent, ended := Sent(compiled, states, turns, i - 1), Ends(compiled, states, turns, i - 1);
        if Performed(compiled, states[i - 1], operation) {
          SendsAsEnded(compiled, states[i - 1], operation, ended);
          SentOn(sent, Sends(compiled, states[i - 1], operation), ended, Ends(compiled, states, turns, i));
        }
      case Restarts(checkpoint, _) => SentIsWhatEnded(compiled, states, turns, checkpoint);
    }
  }

  lemma SentOn(sent: seq<Sending>, more: seq<Sending>, ended: map<nat, Ran>, later: map<nat, Ran>)
    requires SentAsEnded(sent, ended) && SentAsEnded(more, later)
    requires forall id :: id in ended ==> id in later && later[id] == ended[id]
    ensures SentAsEnded(sent + more, later)
  {
    forall at | 0 <= at < |sent + more|
      ensures EndedWith((sent + more)[at], later)
    {
      if at < |sent| {
        assert EndedWith(sent[at], ended);
      } else {
        assert (sent + more)[at] == more[at - |sent|];
      }
    }
  }

  /** Each start is one more attempt, and runs its node as a version newer than all the
      run's records know of, the restored ones included. */
  lemma StartIsNewest(compiled: Compiled, states: seq<RunState>, turns: seq<Turn>, i: nat, id: nat)
    requires Wired(compiled) && Reached(compiled, states, turns) && i < |states|
    requires StartActivation(states[i], id).Ok?
    ensures id in states[i].activations && id in StartActivation(states[i], id).value.activations
    ensures var before, after := states[i].activations, StartActivation(states[i], id).value.activations[id];
            && after.phase == Running && after.attempt == before[id].attempt + 1
            && forall other :: other in before && before[other].activation.node == before[id].activation.node ==>
                 after.version > before[other].version
  {
    EveryStateIsSound(compiled, states, turns, i);
    hide Conserved, Reached;
  }
}
