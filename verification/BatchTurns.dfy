/** What the batch loop does is done by the scheduler's operations: each change of its
    state is one of them (workflow/scheduler.go). */
module BatchTurns {
  import opened Options
  import opened RunState
  import opened Joins
  import opened Settle
  import opened Conservation
  import opened Scheduling
  import opened SchedulingLaws
  import opened Release
  import Codec
  import Epochs
  import opened SchedulingRuns
  import opened JoinLaws
  import opened JoinWaits
  import opened BatchFacts

  /** The operation is one the scheduler performs here, and this is what it makes of it. */
  ghost predicate Makes(compiled: Compiled, state: RunState, operation: Operation, after: RunState) {
    Performed(compiled, state, operation) && Perform(compiled, state, operation).value == after
  }

  lemma FiringMakes(compiled: Compiled, state: RunState, key: JoinKey, input: string)
    requires Conserved(compiled, state) && JoinReady(compiled, state, key)
    ensures Makes(compiled, state, FireJoin(key, input), MaterializeJoin(state, key, input))
  {
    hide Conserved, JoinReady;
  }

  lemma RetryMakes(compiled: Compiled, state: RunState, id: nat, input: string)
    requires Conserved(compiled, state) && RetryActivation(state, id, input).Ok?
    ensures Makes(compiled, state, RetryOne(id, input), RetryActivation(state, id, input).value)
  {
    hide Conserved, RetryActivation;
  }

  lemma BranchMakes(compiled: Compiled, state: RunState, ran: Ran)
    requires Conserved(compiled, state) && Committable(state, ran) && ran.activation.sourceSet.Some?
    requires CommitBranch(state, ran).Ok? && Unused(state, ran.completion)
    ensures Makes(compiled, state, CommitOne(ran), CommitBranch(state, ran).value)
  {
    hide Conserved, CommitBranch, Unused;
  }

  lemma StandaloneMakes(compiled: Compiled, state: RunState, ran: Ran, dispatch: Dispatch)
    requires Conserved(compiled, state) && Committable(state, ran) && ran.activation.sourceSet.None?
    requires ran.cause.None? && CommitActivation(compiled, state, ran, dispatch).Ok?
    ensures Makes(compiled, state, CommitStandalone(ran, dispatch),
                  CommitActivation(compiled, state, ran, dispatch).value)
  {
    hide Conserved, CommitActivation;
  }

  lemma StartMakes(compiled: Compiled, state: RunState, id: nat)
    requires Conserved(compiled, state) && StartActivation(state, id).Ok?
    ensures Makes(compiled, state, StartOne(id), StartActivation(state, id).value)
  {
    hide Conserved, StartActivation;
  }

  lemma NumberingMakes(compiled: Compiled, state: RunState, completion: int)
    requires Conserved(compiled, state) && completion >= state.nextCompletion
    ensures Makes(compiled, state, Numbered(completion), state.(nextCompletion := completion))
  {
    hide Conserved;
  }

  lemma PermutingMakes(compiled: Compiled, state: RunState, queue: seq<Activation>)
    requires Conserved(compiled, state) && multiset(queue) == multiset(state.queue)
    ensures Makes(compiled, state, Permuted(queue), state.(queue := queue))
  {
    hide Conserved;
  }

  lemma CancelMakes(compiled: Compiled, state: RunState, id: nat)
    requires Conserved(compiled, state) && Releasing(state, id) && CancelNext(state, id).Ok?
    ensures Makes(compiled, state, CancelOne(id), CancelNext(state, id).value)
  {
    hide Conserved, CancelNext;
  }

  lemma SupersedeMakes(compiled: Compiled, state: RunState, id: nat, branch: nat)
    requires Conserved(compiled, state) && Releasing(state, id)
    requires CompletedButUnselected(state.sourceSets[id], branch)
    ensures Makes(compiled, state, SupersedeOne(id, branch), Supersede(state, id, branch))
  {
    hide Conserved, Supersede;
  }

  lemma CloseMakes(compiled: Compiled, state: RunState, id: nat, branch: nat)
    requires Conserved(compiled, state) && Enabled(compiled, state, CloseOne(id, branch))
    requires CloseJoinExpectations(compiled, state, state.sourceSets[id].outcomes[branch].activation, map[]).Ok?
    ensures Makes(compiled, state, CloseOne(id, branch),
                  CloseJoinExpectations(compiled, state, state.sourceSets[id].outcomes[branch].activation, map[]).value)
  {
    hide Conserved, CloseJoinExpectations;
  }

  lemma ReleaseMakes(compiled: Compiled, state: RunState, id: nat, branch: nat, dispatch: Dispatch)
    requires Conserved(compiled, state) && Releasing(state, id) && branch in state.sourceSets[id].selected
    requires branch in state.sourceSets[id].outcomes && ReleaseBranch(compiled, state, id, branch, dispatch).Ok?
    ensures Makes(compiled, state, ReleaseOne(id, branch, dispatch),
                  ReleaseBranch(compiled, state, id, branch, dispatch).value)
  {
    hide Conserved, ReleaseBranch;
  }

  lemma DecideMakes(compiled: Compiled, state: RunState, id: nat, selected: seq<nat>)
    requires Conserved(compiled, state) && Enabled(compiled, state, Decided(id, selected))
    ensures Makes(compiled, state, Decided(id, selected), DecideSet(state, id, selected))
  {
    hide Conserved, DecideSet, Decide;
  }

  /** Deciding again, after a crash, changes nothing. */
  lemma DecidedStays(compiled: Compiled, state: RunState, id: nat, selected: seq<nat>)
    requires Conserved(compiled, state) && id in state.sourceSets && state.sourceSets[id].decided
    ensures DecideSet(state, id, selected) == state
  {
    hide QueueSound, SetsSound, RoutingSound, JoinsSound;
    forall iter | iter in state.iterSources && state.iterSources[iter].sourceSet == id
      ensures !state.iterSources[iter].open
    {
      assert IterAt(compiled, state, state.iterSources[iter]);
    }
    assert OpenIters(state.iterSources, id) == {};
    assert ClosedFor(state.iterSources, id) == state.iterSources;
    assert state.sourceSets[id].(openSources := 0) == state.sourceSets[id];
    assert state.sourceSets[id := state.sourceSets[id]] == state.sourceSets;
  }

  lemma FailMakes(compiled: Compiled, state: RunState, id: nat)
    requires Conserved(compiled, state) && id in state.sourceSets && !state.sourceSets[id].decided
    ensures Makes(compiled, state, FailedSet(id), FailSet(state, id))
  {
    hide Conserved, FailSet;
  }

  lemma SettleMakes(compiled: Compiled, state: RunState, id: nat)
    requires Conserved(compiled, state) && id in state.sourceSets && state.sourceSets[id].decided
    requires FullyDealt(state.sourceSets[id]) && UnselectedTold(compiled, state, id)
    ensures Makes(compiled, state, Settled(id), SettleSet(state, id))
  {
    hide Conserved, FullyDealt, UnselectedTold;
  }

  lemma PullMakes(compiled: Compiled, state: RunState, iter: nat, value: string, cursor: Option<string>)
    requires Conserved(compiled, state) && iter in OpenSources(state)
    requires PullItem(compiled, state, iter, value, cursor).Ok?
    ensures Makes(compiled, state, Pulled(iter, value, cursor), PullItem(compiled, state, iter, value, cursor).value)
  {
    hide Conserved, PullItem;
  }

  lemma ExhaustMakes(compiled: Compiled, state: RunState, iter: nat)
    requires Conserved(compiled, state) && iter in OpenSources(state) && CloseIter(state, iter).Ok?
    ensures Makes(compiled, state, Exhausted(iter), CloseIter(state, iter).value)
  {
    hide Conserved, CloseIter;
  }

  lemma FailIterMakes(compiled: Compiled, state: RunState, iter: nat, cause: Cause)
    requires Conserved(compiled, state) && iter in OpenSources(state)
    requires state.iterSources[iter].sourceSet in state.sourceSets
    ensures Makes(compiled, state, FailedIter(iter, cause), FailIter(state, iter, cause))
  {
    hide Conserved, FailIter;
  }

  lemma InterruptMakes(compiled: Compiled, state: RunState, id: nat)
    requires Conserved(compiled, state) && InterruptActivation(state, id).Ok?
    ensures Makes(compiled, state, InterruptOne(id), InterruptActivation(state, id).value)
  {
    hide Conserved, InterruptActivation;
  }

  // ----- the turns of a run -----

  lemma NextTurn(compiled: Compiled, states: seq<RunState>, turns: seq<Turn>, operation: Operation)
    requires Reached(compiled, states, turns) && Performed(compiled, states[|states| - 1], operation)
    ensures Reached(compiled, states + [Perform(compiled, states[|states| - 1], operation).value],
                    turns + [Does(operation)])
  {
    hide Conserved, Perform, Enabled;
    var after := Perform(compiled, states[|states| - 1], operation).value;
    var longer := states + [after];
    assert Turned(compiled, states, Does(operation), after);
    TurnsOn(compiled, states, turns, Does(operation), after);
  }

  lemma TurnsOn(compiled: Compiled, states: seq<RunState>, turns: seq<Turn>, turn: Turn, after: RunState)
    requires Reached(compiled, states, turns) && Turned(compiled, states, turn, after)
    ensures Reached(compiled, states + [after], turns + [turn])
  {
    hide Turned;
    var longer, more := states + [after], turns + [turn];
    forall i | 0 <= i < |more|
      ensures Turned(compiled, longer[..i + 1], more[i], longer[i + 1])
    {
      if i < |turns| {
        assert longer[..i + 1] == states[..i + 1] && longer[i + 1] == states[i + 1];
      } else {
        assert longer[..i + 1] == states;
      }
    }
  }

  lemma ResumedTurn(compiled: Compiled, states: seq<RunState>, turns: seq<Turn>, at: nat, resolved: bool)
    requires Reached(compiled, states, turns) && at < |states|
    ensures Reached(compiled, states + [Resumption(states[at], resolved)], turns + [Restarts(at, resolved)])
  {
    TurnsOn(compiled, states, turns, Restarts(at, resolved), Resumption(states[at], resolved));
  }

  // ----- what a resume may count on -----

  /** A set is being released or failed. */
  predicate BeingLeft(state: RunState, id: nat) {
    id in state.sourceSets && (state.sourceSets[id].decided || state.sourceSets[id].failed)
      && !state.sourceSets[id].settled
  }

  /** No join is ready, unless a set is on its way out, whose release will see to them. */
  ghost predicate CaughtUp(compiled: Compiled, state: RunState) {
    NoneReady(compiled, state) || exists id :: BeingLeft(state, id)
  }

  lemma LeavingIsCaughtUp(compiled: Compiled, state: RunState, id: nat, selected: seq<nat>, failed: bool)
    requires Underway(state, id, selected, failed)
    ensures CaughtUp(compiled, state) && Releasing(state, id)
  {
    assert BeingLeft(state, id);
  }

  /** The set of a failed iterator is on its way out. */
  lemma FailedIterIsCaughtUp(compiled: Compiled, state: RunState, iter: nat, cause: Cause)
    requires Conserved(compiled, state) && iter in OpenSources(state)
    ensures state.iterSources[iter].sourceSet in state.sourceSets
    ensures CaughtUp(compiled, FailIter(state, iter, cause))
  {
    OpenIsUndecided(compiled, state, iter);
    UndecidedIsUnsettled(compiled, state, state.iterSources[iter].sourceSet);
    hide Conserved, NoneReady, OpenSources;
    FailedIsBeingLeft(state, iter, cause);
  }

  lemma FailedIsBeingLeft(state: RunState, iter: nat, cause: Cause)
    requires iter in state.iterSources && state.iterSources[iter].sourceSet in state.sourceSets
    requires !state.sourceSets[state.iterSources[iter].sourceSet].settled
    ensures BeingLeft(FailIter(state, iter, cause), state.iterSources[iter].sourceSet)
  {
  }

  lemma UndecidedIsUnsettled(compiled: Compiled, state: RunState, id: nat)
    requires Conserved(compiled, state) && id in state.sourceSets && !state.sourceSets[id].decided
    ensures !state.sourceSets[id].settled
  {
    assert SetSound(state.activations, id, state.sourceSets[id], 0);
  }

  /** Settling a set leaves joins as they should be: nothing was done, or the release has
      fired what was ready. */
  lemma SettlingCatchesUp(compiled: Compiled, before: RunState, after: RunState, id: nat, settling: Settling)
    requires SettlesAs(compiled, before, after, id, settling) && settling != SetFailed && settling != SetStopped
    ensures NoneReady(compiled, before) ==> NoneReady(compiled, after)
    ensures BeingLeft(before, id) ==> NoneReady(compiled, after)
    ensures !NoneReady(compiled, after) ==> after == before
  {
  }

  lemma ResumedIsCaughtUp(compiled: Compiled, state: RunState, resolved: bool)
    requires Conserved(compiled, state) && Codec.Kept(state) && CaughtUp(compiled, state)
    ensures CaughtUp(compiled, Resumption(state, resolved))
  {
    var after := Resumption(state, resolved);
    ResumptionIsSound(compiled, state, resolved);
    ResumptionKeepsJoins(compiled, state, resolved);
    Epochs.ResumptionKeepsPlaces(compiled, state, resolved);
    UnmovedKeepsPlaces(state, after);
    ResumptionKeepsFlags(compiled, state, resolved);
    hide Conserved, Codec.Kept, Resumption, NoneReady, Epochs.Unmoved;
    if NoneReady(compiled, state) {
      NoneReadyStays(compiled, state, after);
    } else {
      var id :| BeingLeft(state, id);
      assert BeingLeft(after, id);
    }
  }

  lemma ResumptionKeepsFlags(compiled: Compiled, state: RunState, resolved: bool)
    requires Conserved(compiled, state) && Codec.Kept(state)
    ensures forall id :: BeingLeft(state, id) ==> BeingLeft(Resumption(state, resolved), id)
  {
    Codec.RoundTrip(compiled, state);
    hide Conserved, Codec.Kept, Codec.Encode, Codec.Restore;
  }

  lemma ResumptionIsReady(compiled: Compiled, state: RunState, resolved: bool)
    requires Conserved(compiled, state) && Codec.Kept(state)
    ensures resolved || NobodyInterrupted(state) ==> InBatch(Resumption(state, resolved), [])
  {
    var restored := Codec.Restore(Codec.Encode(state), state.routed, state.joined);
    Codec.RoundTrip(compiled, state);
    Codec.RestoredIsConserved(compiled, state);
    assert NobodyInterrupted(state) ==> NobodyInterrupted(restored);
    ResumptionIsSound(compiled, state, resolved);
    hide Conserved, Codec.Kept, Codec.Encode, Codec.Restore, Codec.Plain, PrepareResume;
    ResumedIsReady(compiled, restored, resolved);
  }

  /** What is left of a run that has wound up, when no join is ready any more. */
  lemma WoundUpJoins(compiled: Compiled, states: seq<RunState>, turns: seq<Turn>)
    requires Wired(compiled) && Reached(compiled, states, turns)
    requires WoundUp(states[|turns|]) && NoneReady(compiled, states[|turns|])
    ensures var state := states[|turns|];
            forall key :: key in state.buckets && HasContribution(state.buckets[key]) ==>
              Fired(state.joined, key) || WaitsForStopped(compiled, Sent(compiled, states, turns, |turns|), key)
  {
    var state := states[|turns|];
    EveryStateIsConserved(compiled, states, turns, |turns|);
    NoneReadyIffNoneComplete(compiled, state);
    WoundUpIsOver(compiled, state);
    hide Conserved, Reached, WoundUp, NoneReady, Complete, HasContribution, WaitsForStopped, Fired;
    forall key | key in state.buckets && HasContribution(state.buckets[key])
      ensures Fired(state.joined, key) || WaitsForStopped(compiled, Sent(compiled, states, turns, |turns|), key)
    {
      LeftIncompleteIff(compiled, states, turns, |turns|, key);
    }
  }

  lemma WoundUpIsOver(compiled: Compiled, state: RunState)
    requires Conserved(compiled, state) && WoundUp(state)
    ensures EverythingIsOver(state)
  {
    hide QueueSound, ItersSound, RoutingSound, JoinsSound, SetSound;
    forall id | id in state.activations
      ensures Over(state, id)
    {
      assert Accounted(state, id);
    }
  }

  /** A run begins with nothing but its entry. */
  lemma RunBegins(compiled: Compiled, runID: string, input: string)
    ensures var first := Initial(compiled, runID, input);
            && Conserved(compiled, first) && CaughtUp(compiled, first) && InBatch(first, [])
            && Reached(compiled, [first], [])
  {
    InitialIsConserved(compiled, runID, input);
    hide Conserved;
  }

  /** A run goes on from any checkpoint. */
  lemma RunGoesOn(compiled: Compiled, states: seq<RunState>, turns: seq<Turn>, at: nat, resolved: bool)
    requires Wired(compiled) && Reached(compiled, states, turns) && at < |states| && CaughtUp(compiled, states[at])
    ensures var resumed := Resumption(states[at], resolved);
            && Conserved(compiled, resumed) && CaughtUp(compiled, resumed)
            && Reached(compiled, states + [resumed], turns + [Restarts(at, resolved)])
            && |turns| + 1 == |states|
            && (resolved || NobodyInterrupted(states[at]) ==> InBatch(resumed, []))
  {
    ResumedTurn(compiled, states, turns, at, resolved);
    EveryStateIsSound(compiled, states, turns, at);
    hide Conserved, Codec.Kept, Resumption, CaughtUp, InBatch, NobodyInterrupted;
    ResumptionIsSound(compiled, states[at], resolved);
    ResumedIsCaughtUp(compiled, states[at], resolved);
    ResumptionIsReady(compiled, states[at], resolved);
  }
}
