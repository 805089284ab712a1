/** Whole runs of the scheduler, its crashes included: a resume starts from what a
    checkpoint saved (workflow/scheduler.go, workflow/workflow.go). */
module SchedulingRuns {
  import opened RunState
  import opened Joins
  import opened Settle
  import opened Conservation
  import opened Scheduling
  import opened SchedulingSafety
  import opened SchedulingLaws
  import opened Codec

  /** One operation, or none where the scheduler would not perform it or fails. */
  ghost function Next(compiled: Compiled, state: RunState, operation: Operation): RunState
    requires Conserved(compiled, state)
  {
    if Enabled(compiled, state, operation)
      && Perform(compiled, state, operation).Ok? then Perform(compiled, state, operation).value else state
  }

  /** What a resume starts with: the saved payload, restored and prepared. */
  function Resumption(state: RunState, resolved: bool): RunState {
    PrepareResume(Restore(Encode(state), state.routed, state.joined), resolved)
  }

  // The scheduler performs an operation, or the run is stopped and resumed from the
  // payload some earlier checkpoint holds.
  datatype Turn = Does(operation: Operation) | Restarts(checkpoint: nat, resolved: bool)

  /** The scheduler's states over a run, its crashes and resumes included. */
  ghost predicate Reached(compiled: Compiled, states: seq<RunState>, turns: seq<Turn>) {
    && |states| == |turns| + 1
    && (exists runID, input :: states[0] == Initial(compiled, runID, input))
    && (forall i :: 0 <= i < |turns| ==> Turned(compiled, states[..i + 1], turns[i], states[i + 1]))
  }

  ghost predicate Turned(compiled: Compiled, past: seq<RunState>, turn: Turn, after: RunState)
    requires past != []
  {
    match turn
    case Does(operation) => Conserved(compiled, past[|past| - 1]) ==>
      after == Next(compiled, past[|past| - 1], operation)
    case Restarts(checkpoint, resolved) => checkpoint < |past| && after == Resumption(past[checkpoint], resolved)
  }

  lemma ResumptionIsSound(compiled: Compiled, state: RunState, resolved: bool)
    requires Conserved(compiled, state) && Kept(state)
    ensures Conserved(compiled, Resumption(state, resolved)) && Kept(Resumption(state, resolved))
  {
    hide Conserved, Kept, Encode, Restore, PrepareResume;
    RestoredIsConserved(compiled, state);
    RestoredIsKept(compiled, state);
    ResumeConserves(compiled, Restore(Encode(state), state.routed, state.joined), resolved);
    ResumeKeepsKept(Restore(Encode(state), state.routed, state.joined), resolved);
  }

  /** After a resume nothing is running, an activation is interrupted exactly if it was and
      nobody has answered, and what was over is over in the same way. */
  lemma ResumedPhase(compiled: Compiled, state: RunState, resolved: bool, id: nat)
    requires Conserved(compiled, state) && Kept(state) && id in state.activations
    ensures id in Resumption(state, resolved).activations
    ensures var before, after := state.activations[id], Resumption(state, resolved).activations[id];
            && after.activation == before.activation && after.phase != Running
            && (after.phase == Interrupted <==> before.phase == Interrupted && !resolved)
            && (!Pending(before.phase) <==> !Pending(after.phase))
            && (!Pending(before.phase) ==> after.phase == before.phase)
  {
    RoundTrip(compiled, state);
    hide Conserved, Kept, Encode, Restore;
    var restored := Restore(Encode(state), state.routed, state.joined);
    assert restored.activations == Plain(state).activations;
    hide Plain;
    PlainPhase(state, id);
    PreparedPhase(restored, resolved, id);
  }

  lemma PlainPhase(state: RunState, id: nat)
    requires id in state.activations
    ensures id in Plain(state).activations && Plain(state).activations[id].phase == state.activations[id].phase
    ensures Plain(state).activations[id].activation == state.activations[id].activation
  {
  }

  lemma PreparedPhase(state: RunState, resolved: bool, id: nat)
    requires id in state.activations
    ensures id in PrepareResume(state, resolved).activations
    ensures var before, after := state.activations[id], PrepareResume(state, resolved).activations[id];
            && after.activation == before.activation && after.phase != Running
            && (after.phase == Interrupted <==> before.phase == Interrupted && !resolved)
            && (!Pending(before.phase) <==> !Pending(after.phase))
            && (!Pending(before.phase) ==> after.phase == before.phase)
  {
  }

  lemma {:induction false} EveryStateIsSound(compiled: Compiled, states: seq<RunState>, turns: seq<Turn>, i: nat)
    requires Wired(compiled) && Reached(compiled, states, turns) && i < |states|
    ensures Conserved(compiled, states[i]) && Kept(states[i])
    decreases i
  {
    hide Conserved, Kept, Perform, Enabled, Resumption;
    if i == 0 {
      var runID, input :| states[0] == Initial(compiled, runID, input);
      InitialIsConserved(compiled, runID, input);
      InitialIsKept(compiled, runID, input);
    } else {
      assert Turned(compiled, states[..i], turns[i - 1], states[i]);
      match turns[i - 1]
      case Does(operation) =>
        EveryStateIsSound(compiled, states, turns, i - 1);
        if Enabled(compiled, states[i - 1], operation) && Perform(compiled, states[i - 1], operation).Ok? {
          PerformConserves(compiled, states[i - 1], operation);
          PerformKeepsKept(compiled, states[i - 1], operation);
        }
      case Restarts(checkpoint, resolved) =>
        EveryStateIsSound(compiled, states, turns, checkpoint);
        ResumptionIsSound(compiled, states[checkpoint], resolved);
    }
  }

  lemma EveryStateIsConserved(compiled: Compiled, states: seq<RunState>, turns: seq<Turn>, i: nat)
    requires Wired(compiled) && Reached(compiled, states, turns) && i < |states|
    ensures Conserved(compiled, states[i])
  {
    hide Conserved, Reached;
    EveryStateIsSound(compiled, states, turns, i);
  }

  /** Every state a run reaches survives being saved and restored, up to what the payload
      drops of failures, and is then saved as the same payload again. */
  lemma CheckpointsRestore(compiled: Compiled, states: seq<RunState>, turns: seq<Turn>, i: nat)
    requires Wired(compiled) && Reached(compiled, states, turns) && i < |states|
    ensures var state, restored := states[i], Restore(Encode(states[i]), states[i].routed, states[i].joined);
            && restored == Plain(state).(nodeVersions := restored.nodeVersions)
            && (forall node :: At(restored.nodeVersions, node) == At(state.nodeVersions, node))
            && Encode(restored) == Encode(state)
  {
    hide Reached, Encode, Restore;
    EveryStateIsSound(compiled, states, turns, i);
    RoundTrip(compiled, states[i]);
    ReencodesTheSame(compiled, states[i]);
  }

  // ----- what that says -----

  /** For every node, what was ever scheduled is completed or still queued, and
      identifiers in the queue are unique and tracked. */
  lemma NothingGetsLost(compiled: Compiled, states: seq<RunState>, turns: seq<Turn>, i: nat, node: string)
    requires Wired(compiled) && Reached(compiled, states, turns) && i < |states|
    ensures At(states[i].scheduled, node) == At(states[i].completed, node) + QueueCount(states[i].queue, node)
    ensures forall j, k :: 0 <= j < k < |states[i].queue| ==> states[i].queue[j].id != states[i].queue[k].id
    ensures forall j :: 0 <= j < |states[i].queue| ==> TrackedAs(states[i].activations, states[i].queue[j])
  {
    EveryStateIsConserved(compiled, states, turns, i);
  }

  /** The branches of a set split into those with an outcome and those queued, and
      there are as many as the set expects. */
  lemma BranchesSplit(compiled: Compiled, states: seq<RunState>, turns: seq<Turn>, i: nat, id: nat)
    requires Wired(compiled) && Reached(compiled, states, turns) && i < |states| && id in states[i].sourceSets
    ensures var state, group := states[i], states[i].sourceSets[id];
            var queued := set branch | branch in group.branches && branch in QueueIDs(state.queue);
            && group.expected == |group.branches|
            && group.outcomes.Keys !! queued && Elements(group.branches) == group.outcomes.Keys + queued
            && (group.settled ==> queued == {})
  {
    EveryStateIsConserved(compiled, states, turns, i);
    SplitOf(states[i], id);
  }

  /** An activation is routed at most once in a run, and only when it is due: it
      completed, and for a branch its set selected it. */
  lemma RoutedOnce(compiled: Compiled, states: seq<RunState>, turns: seq<Turn>, i: nat)
    requires Wired(compiled) && Reached(compiled, states, turns) && i < |states|
    ensures forall j, k :: 0 <= j < k < |states[i].routed| ==> states[i].routed[j] != states[i].routed[k]
    ensures forall id :: id in states[i].routed <==> Released(states[i], id)
  {
    EveryStateIsConserved(compiled, states, turns, i);
  }

  /** Over a whole run a join fires at most once for a correlation. */
  lemma JoinsFireOnce(compiled: Compiled, states: seq<RunState>, turns: seq<Turn>, i: nat)
    requires Wired(compiled) && Reached(compiled, states, turns) && i < |states|
    ensures forall j, k :: 0 <= j < k < |states[i].joined| ==> states[i].joined[j].key != states[i].joined[k].key
  {
    hide Reached;
    EveryStateIsConserved(compiled, states, turns, i);
  }
}
