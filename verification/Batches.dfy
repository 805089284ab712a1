/** Batches of ready activations: taken from the queue, run, committed in queue
    order and settled, until nothing is left to do (workflow/scheduler.go,
    workflow/settle.go, workflow/iter_source.go). */
module Batches {
  import opened Options
  import opened Topology
  import opened RunState
  import opened Joins
  import opened Settle
  import opened Conservation
  import opened Scheduling
  import opened SchedulingSafety
  import opened SchedulingLaws
  import opened OpenSets
  import opened Announcements
  import opened Release
  import opened JoinLaws
  import opened SchedulingRuns
  import opened JoinWaits
  import opened BatchFacts
  import opened BatchTurns
  import opened IterRuns
  import opened Completions

  // ----- the scheduler -----

  // How one run of a node ends.
  datatype NodeOutcome = NodeOutcome(result: NodeResult, cause: Option<Cause>, retry: Option<string>, interrupted: bool)

  // What the surroundings decide at each call: whether an event is committed, how
  // nodes end, where outputs are routed, what joins make of their contributions, and
  // what iterators yield.
  datatype World = World(
    accepts: nat -> bool,
    run: (nat, Activation) -> NodeOutcome,
    route: (nat, Activation) -> Dispatch,
    join: (nat, JoinKey, map<string, seq<string>>) -> Option<string>,
    pull: (nat, nat) -> Pull)

  datatype Pull =
    | Item(value: string, cursor: Option<string>)
    | Uncaptured(value: string, cause: Cause)
    | NoMore
    | Failing(cause: Cause)

  // A checkpoint saved with an event: the state, the next step it records, and how
  // many items the run had committed.
  datatype Snapshot = Snapshot(state: RunState, nextStep: int, commits: int)

  ghost predicate SnapshotSound(compiled: Compiled, saved: Snapshot) {
    && Conserved(compiled, saved.state) && CaughtUp(compiled, saved.state)
    && saved.nextStep == saved.commits + 1 && 0 <= saved.commits <= compiled.maxSteps
  }

  /** Each join's input is what the surroundings made of just what it had been sent. */
  ghost predicate MadeOfContributions(world: World, tick: nat, state: RunState, fired: seq<Firing>) {
    forall i :: 0 <= i < |fired| ==> MadeOf(world, tick + i, FireAll(state, fired[..i]), fired[i])
  }

  ghost predicate MadeOf(world: World, tick: nat, state: RunState, firing: Firing) {
    firing.key in state.buckets
      && world.join(tick, firing.key, state.buckets[firing.key].contributions) == Some(firing.input)
  }

  lemma FiresOneMore(compiled: Compiled, began: RunState, state: RunState, fired: seq<Firing>, next: Firing)
    requires Conserved(compiled, state) && state == FireAll(began, fired) && AllReady(compiled, began, fired)
    requires Appends(began, state, began.queue, None) && JoinsOnlyAdd(began, state)
    requires StillTold(compiled, began, state) && next.key in state.buckets && JoinReady(compiled, state, next.key)
    ensures var after := MaterializeJoin(state, next.key, next.input);
            && after == FireAll(began, fired + [next]) && AllReady(compiled, began, fired + [next])
            && Appends(began, after, began.queue, None) && JoinsOnlyAdd(began, after)
            && StillTold(compiled, began, after) && |after.buckets| < |state.buckets|
  {
    hide Conserved, FireAll, AllReady, StillTold, JoinReady;
    FiredAppends(compiled, began, state, next.key, next.input);
    FireOneMore(compiled, began, fired, next);
    StillToldOn(compiled, began, state, MaterializeJoin(state, next.key, next.input));
  }

  /** Each fired join has become one activation of its target with that input, in order. */
  predicate QueuedAsFired(before: RunState, after: RunState, fired: seq<Firing>) {
    && before.queue <= after.queue && before.joined <= after.joined
    && FiredInto(after.queue[|before.queue|..], after.joined[|before.joined|..], fired)
  }

  predicate FiredInto(items: seq<Activation>, joined: seq<Joining>, fired: seq<Firing>) {
    && |items| == |joined| == |fired|
    && forall i :: 0 <= i < |fired| ==>
         && items[i] == Activation(items[i].id, fired[i].key.target, fired[i].input, None, 0, fired[i].key.correlation)
         && joined[i] == Joining(fired[i].key, items[i].id)
  }

  lemma {:induction false} FiredAreQueued(state: RunState, fired: seq<Firing>)
    ensures QueuedAsFired(state, FireAll(state, fired), fired)
  {
    hide MaterializeJoin, QueuedAsFired;
    if fired == [] {
      NoneQueued(state);
    } else {
      var last := |fired| - 1;
      FiredAreQueued(state, fired[..last]);
      FiringQueues(FireAll(state, fired[..last]), fired[last]);
      OneMoreQueued(state, FireAll(state, fired[..last]), FireAll(state, fired), fired);
    }
  }

  lemma NoneQueued(state: RunState)
    ensures QueuedAsFired(state, state, [])
  {
  }

  lemma OneMoreQueued(state: RunState, before: RunState, after: RunState, fired: seq<Firing>)
    requires fired != [] && QueuedAsFired(state, before, fired[..|fired| - 1])
    requires var next := fired[|fired| - 1];
             var item := Activation(before.nextActSeq, next.key.target, next.input, None, 0, next.key.correlation);
             after.queue == before.queue + [item] && after.joined == before.joined + [Joining(next.key, item.id)]
    ensures QueuedAsFired(state, after, fired)
  {
    var items, joined := before.queue[|state.queue|..], before.joined[|state.joined|..];
    assert after.queue[|state.queue|..] == items + [after.queue[|after.queue| - 1]];
    assert after.joined[|state.joined|..] == joined + [after.joined[|after.joined| - 1]];
  }

  lemma FiringQueues(state: RunState, firing: Firing)
    ensures var after, item :=
              MaterializeJoin(state, firing.key, firing.input),
              Activation(state.nextActSeq, firing.key.target, firing.input, None, 0, firing.key.correlation);
            after.queue == state.queue + [item] && after.joined == state.joined + [Joining(firing.key, item.id)]
  {
  }

  lemma NothingMade(world: World, tick: nat, state: RunState)
    ensures MadeOfContributions(world, tick, state, [])
  {
  }

  lemma MadeOneMore(world: World, tick: nat, state: RunState, fired: seq<Firing>, next: Firing)
    requires MadeOfContributions(world, tick, state, fired)
    requires MadeOf(world, tick + |fired|, FireAll(state, fired), next)
    ensures MadeOfContributions(world, tick, state, fired + [next])
  {
    hide FireAll, MadeOf;
    var more := fired + [next];
    assert more[..|fired|] == fired;
    forall i | 0 <= i < |more|
      ensures MadeOf(world, tick + i, FireAll(state, more[..i]), more[i])
    {
      if i < |fired| {
        assert more[..i] == fired[..i];
      }
    }
  }

  lemma {:induction false} ChosenAreUnused(state: RunState, results: seq<Ran>, interrupted: set<nat>, which: bool)
    requires AllUnused(state, results)
    ensures AllUnused(state, Chosen(results, interrupted, which))
    ensures forall ran :: ran in Chosen(results, interrupted, which) ==> ran in results
  {
    hide Unused;
    if results != [] {
      var rest := results[1..];
      assert AllUnused(state, rest) by {
        assert forall i :: 0 <= i < |rest| ==> rest[i] == results[i + 1];
      }
      ChosenAreUnused(state, rest, interrupted, which);
      assert forall ran :: ran in rest ==> ran.completion != results[0].completion;
    }
  }

  lemma KeepsOwnNumbers(state: RunState)
    ensures KeepsNumbers(state, state)
  {
  }

  lemma KeepsNumbersOn(first: RunState, second: RunState, third: RunState)
    requires KeepsNumbers(first, second) && KeepsNumbers(second, third)
    ensures KeepsNumbers(first, third)
  {
  }

  /** A checkpoint saved when an item was committed: its step, and the item ended. */
  ghost predicate SavedEnded(saved: Snapshot, nextStep: int, ran: Ran) {
    saved.nextStep == nextStep && Ended(saved.state, ran)
  }

  /** The branch's outcome is just what became of it. */
  predicate HasOutcome(state: RunState, ran: Ran) {
    && ran.activation.sourceSet.Some?
    && var id := ran.activation.sourceSet.value;
       && id in state.sourceSets && ran.activation.id in state.sourceSets[id].outcomes
       && var outcome := state.sourceSets[id].outcomes[ran.activation.id];
          && outcome.activation == ran.activation && outcome.result == ran.result && outcome.cause == ran.cause
          && outcome.completion == ran.completion && !outcome.committed
  }

  /** The item is to run again, on the input asked for, behind everything queued. */
  predicate RunsAgain(before: RunState, after: RunState, ran: Ran) {
    && ran.retry.Some? && before.queue != [] && ran.activation.id in after.activations
    && var again := ran.activation.(input := ran.retry.value);
       && after.queue == before.queue[1..] + [again]
       && after.activations[again.id].activation == again && after.activations[again.id].phase == Ready
       && !after.activations[again.id].hasResult && after.activations[again.id].cause.None?
  }

  lemma RetriedRunsAgain(compiled: Compiled, state: RunState, ran: Ran)
    requires Conserved(compiled, state) && Committable(state, ran) && ran.retry.Some?
    requires RetryActivation(state, ran.activation.id, ran.retry.value).Ok?
    ensures RunsAgain(state, RetryActivation(state, ran.activation.id, ran.retry.value).value, ran)
  {
    assert TrackedAs(state.activations, state.queue[0]);
    hide Conserved;
  }

  /** The iterator has failed, and its set for that reason; no other iterator of the set
      goes on, and nothing else has changed. */
  ghost predicate FailedFor(before: RunState, after: RunState, iter: nat, cause: Cause) {
    && iter in before.iterSources && after.iterSources.Keys == before.iterSources.Keys
    && var id := before.iterSources[iter].sourceSet;
       && id in before.sourceSets && after == before.(iterSources := after.iterSources, sourceSets := after.sourceSets)
       && after.sourceSets == before.sourceSets[id := before.sourceSets[id].(
            failed := true, cause := Some(cause), openSources := 0)]
       && (forall other :: other in after.iterSources ==>
             var was := before.iterSources[other];
             after.iterSources[other] == was.(
               open := was.open && was.sourceSet != id, cause := if other == iter then Some(cause) else was.cause))
  }

  lemma FailingIter(state: RunState, iter: nat, cause: Cause)
    requires iter in state.iterSources && state.iterSources[iter].sourceSet in state.sourceSets
    ensures FailedFor(state, FailIter(state, iter, cause), iter, cause)
  {
  }

  lemma BranchHasOutcome(state: RunState, ran: Ran)
    requires CommitBranch(state, ran).Ok?
    ensures HasOutcome(CommitBranch(state, ran).value, ran)
  {
    hide Finish;
  }

  /** A result is the item as the node ended. */
  predicate RanAs(ran: Ran, item: Activation, outcome: NodeOutcome) {
    ran.activation == item && ran.result == outcome.result && ran.cause == outcome.cause && ran.retry == outcome.retry
  }

  function Least(left: int, right: int): int {
    if left < right then left else right
  }

  class BatchScheduler {
    const compiled: Compiled
    const world: World
    var state: RunState
    var step: int
    var tick: nat
    ghost var commits: int
    ghost var durable: seq<Snapshot>
    ghost var states: seq<RunState>   // the run so far, with all its executions
    ghost var turns: seq<Turn>

    /** The step counts the committed items, whatever was saved is sound, and all that was
        done and saved belongs to one run of the scheduler. */
    ghost predicate Valid()
      reads this
    {
      && Wired(compiled) && compiled.maxParallelism > 0
      && Conserved(compiled, state) && step == commits + 1 && 0 <= commits <= compiled.maxSteps
      && Reached(compiled, states, turns) && |states| == |turns| + 1 && state == states[|turns|]
      && forall i :: 0 <= i < |durable| ==> SnapshotSound(compiled, durable[i]) && durable[i].state in states
    }

    /** Goes on from a checkpoint of the run: its payload is restored and prepared. */
    constructor (compiled: Compiled, world: World, saved: Snapshot, resolved: bool, ghost states: seq<RunState>,
                 ghost turns: seq<Turn>)
      requires Wired(compiled) && compiled.maxParallelism > 0 && SnapshotSound(compiled, saved)
      requires Reached(compiled, states, turns) && saved.state in states
      ensures Valid() && this.compiled == compiled && state == Resumption(saved.state, resolved)
      ensures commits == saved.commits && CaughtUp(compiled, state)
      ensures resolved || NobodyInterrupted(saved.state) ==> InBatch(state, [])
    {
      hide Conserved, Reached, CaughtUp, Resumption, Wired, InBatch, NobodyInterrupted;
      var resumed := Resumption(saved.state, resolved);
      this.compiled, this.world, tick := compiled, world, 0;
      state, step := resumed, if saved.nextStep <= 0 then 1 else saved.nextStep;
      commits, durable := saved.commits, [];
      ghost var at :| 0 <= at < |states| && states[at] == saved.state;
      RunGoesOn(compiled, states, turns, at, resolved);
      this.states, this.turns := states + [resumed], turns + [Restarts(at, resolved)];
    }

    /** A new run: the entry alone is queued, with the run's input. */
    constructor Begin(compiled: Compiled, world: World, runID: string, input: string)
      requires Wired(compiled) && compiled.maxParallelism > 0 && compiled.maxSteps >= 0
      ensures Valid() && this.compiled == compiled && this.world == world && commits == 0 && step == 1
      ensures state.queue == [Activation(1, compiled.entry, input, None, 0, CorrelationKey(runID, INITIAL_EPOCH))]
      ensures state.sourceSets == map[] && state.iterSources == map[] && state.buckets == map[]
      ensures InBatch(state, []) && CaughtUp(compiled, state)
    {
      hide Conserved, Reached, CaughtUp, InBatch;
      var first := Initial(compiled, runID, input);
      this.compiled, this.world, tick := compiled, world, 0;
      state, step, commits, durable := first, 1, 0, [];
      this.states, this.turns := [first], [];
      RunBegins(compiled, runID, input);
    }

    /** One operation of the scheduler: one more turn of the run. What looks at no join
        makes none ready. */
    method Do(ghost operation: Operation, after: RunState)
      requires Valid() && Makes(compiled, state, operation, after)
      modifies this`state, this`states, this`turns
      ensures Valid() && state == after
      ensures Apart(operation) && old(NoneReady(compiled, state)) ==> NoneReady(compiled, state)
      ensures !operation.CommitOne? && !operation.CancelOne? ==> KeepsNumbers(old(state), state)
    {
      hide Conserved, SnapshotSound, Wired, Perform, Enabled, NoneReady, KeepsNumbers;
      if !operation.CommitOne? && !operation.CancelOne? {
        OthersKeepNumbers(compiled, state, operation);
      }
      PerformConserves(compiled, state, operation);
      if Apart(operation) && NoneReady(compiled, state) {
        ApartMakesNoneReady(compiled, state, operation);
      }
      NextTurn(compiled, states, turns, operation);
      state, states, turns := after, states + [after], turns + [Does(operation)];
    }

    /** Commits an event: the state is saved with it, whether or not this succeeds. */
    method CommitEvent(nextStep: int, ghost count: int) returns (ok: bool)
      requires Valid() && nextStep == count + 1 && 0 <= count <= compiled.maxSteps && CaughtUp(compiled, state)
      modifies this`durable, this`tick
      ensures ok == world.accepts(old(tick))
      ensures Valid() && durable == old(durable) + [Snapshot(state, nextStep, count)]
    {
      hide Conserved, Wired, Reached, CaughtUp;
      ok := world.accepts(tick);
      tick, durable := tick + 1, durable + [Snapshot(state, nextStep, count)];
    }

    // ----- joins -----

    /** Fires every join that is ready, in whatever order, until none is, or until one
        cannot make an input of its contributions. */
    method MaterializeReadyJoins() returns (ok: bool, ghost fired: seq<Firing>)
      requires Valid()
      modifies this`state, this`states, this`turns, this`tick
      ensures Valid() && state == FireAll(old(state), fired) && AllReady(compiled, old(state), fired)
      ensures MadeOfContributions(world, old(tick), old(state), fired) && QueuedAsFired(old(state), state, fired)
      ensures ok ==> forall key :: !Complete(compiled, state, key)
      ensures KeepsNumbers(old(state), state)
      ensures Appends(old(state), state, old(state).queue, None) && JoinsOnlyAdd(old(state), state)
      ensures StillTold(compiled, old(state), state)
      ensures ok <==> NoneReady(compiled, state)
    {
      hide Conserved, JoinReady, FireAll, AllReady, StillTold, Wired, SnapshotSound, Reached, MadeOfContributions,
        MaterializeJoin, QueuedAsFired, KeepsNumbers;
      fired := [];
      NothingFired(compiled, state);
      NothingMade(world, tick, state);
      KeepsOwnNumbers(state);
      while exists key :: key in state.buckets && JoinReady(compiled, state, key)
        invariant Valid() && state == FireAll(old(state), fired) && AllReady(compiled, old(state), fired)
        invariant Appends(old(state), state, old(state).queue, None) && JoinsOnlyAdd(old(state), state)
        invariant StillTold(compiled, old(state), state) && KeepsNumbers(old(state), state)
        invariant tick == old(tick) + |fired| && MadeOfContributions(world, old(tick), old(state), fired)
        decreases |state.buckets|
      {
        var key :| key in state.buckets && JoinReady(compiled, state, key);
        var input := world.join(tick, key, state.buckets[key].contributions);
        tick := tick + 1;
        if input.None? {
          FiredAreQueued(old(state), fired);
          return false, fired;
        }
        FiringMakes(compiled, state, key, input.value);
        MadeOneMore(world, old(tick), old(state), fired, Firing(key, input.value));
        FiresOneMore(compiled, old(state), state, fired, Firing(key, input.value));
        ghost var before := state;
        Do(FireJoin(key, input.value), MaterializeJoin(state, key, input.value));
        KeepsNumbersOn(old(state), before, state);
        fired := fired + [Firing(key, input.value)];
      }
      NoneReadyIffNoneComplete(compiled, state);
      FiredAreQueued(old(state), fired);
      return true, fired;
    }

    // ----- committing what ran -----

    /** Commits the batch item at the head of the queue: it is retried, gets its outcome,
        or is routed. Being at the head and running it is never refused: what can fail
        is its route, a join or the event. */
    method CommitBatchItem(ran: Ran) returns (ok: bool, ghost fired: seq<Firing>)
      requires Valid() && commits < compiled.maxSteps && Committable(state, ran) && NoneReady(compiled, state)
      requires Unused(state, ran.completion)
      modifies this`state, this`states, this`turns, this`durable, this`tick
      ensures Valid() && CommitsTo(compiled, old(state), ran, world.route(old(tick), ran.activation), fired, state)
      ensures ok ==>
        Dealt(old(state), state) && Ended(state, ran)
          && durable == old(durable) + [Snapshot(state, step + 1, commits + 1)]
      ensures ok ==> NoneReady(compiled, state)
      ensures OnlyUses(old(state), state, ran.completion)
      ensures ok && ran.cause.None? && ran.retry.Some? ==> RunsAgain(old(state), state, ran)
      ensures ok && ran.activation.sourceSet.Some? && !(ran.cause.None? && ran.retry.Some?) ==> HasOutcome(state, ran)
      ensures |durable| <= |old(durable)| + 1 && old(durable) <= durable
    {
      hide *;
      CommittableCause(state, ran);
      fired := [];
      if ran.cause.None? && ran.retry.Some? {
        ok := CommitRetriedItem(ran);
      } else if ran.activation.sourceSet.Some? {
        ok := CommitBranchItem(ran);
      } else {
        ok, fired := CommitStandaloneItem(ran);
      }
    }

    method CommitRetriedItem(ran: Ran) returns (ok: bool)
      requires Valid() && commits < compiled.maxSteps && Committable(state, ran) && ran.cause.None? && ran.retry.Some?
      requires NoneReady(compiled, state)
      modifies this`state, this`states, this`turns, this`durable, this`tick
      ensures Valid() && CommitsTo(compiled, old(state), ran, world.route(old(tick), ran.activation), [], state)
      ensures durable == old(durable) + [Snapshot(state, step + 1, commits + 1)] && Dealt(old(state), state)
      ensures Ended(state, ran) && NoneReady(compiled, state) && RunsAgain(old(state), state, ran)
      ensures OnlyUses(old(state), state, ran.completion)
    {
      hide Conserved, SnapshotSound, Wired, Reached, Dealt, Ended, Committable, RetryActivation, CommitBranch,
        CommitActivation;
      hide CommitsTo, RunsAgain, KeepsNumbers, OnlyUses;
      ghost var before := state;
      CommitsAs(compiled, state, ran, world.route(tick, ran.activation));
      RetryWorks(compiled, state, ran, ran.retry.value);
      RetriedRunsAgain(compiled, state, ran);
      RetryMakes(compiled, state, ran.activation.id, ran.retry.value);
      Do(RetryOne(ran.activation.id, ran.retry.value),
        RetryActivation(state, ran.activation.id, ran.retry.value).value);
      KeepingUsesNone(before, state, ran.completion);
      ok := CommitEvent(step + 1, commits + 1);
    }

    method CommitBranchItem(ran: Ran) returns (ok: bool)
      requires Valid() && commits < compiled.maxSteps && Committable(state, ran)
      requires ran.activation.sourceSet.Some? && !(ran.cause.None? && ran.retry.Some?) && NoneReady(compiled, state)
      requires Unused(state, ran.completion)
      modifies this`state, this`states, this`turns, this`durable, this`tick
      ensures Valid() && CommitsTo(compiled, old(state), ran, world.route(old(tick), ran.activation), [], state)
      ensures durable == old(durable) + [Snapshot(state, step + 1, commits + 1)] && Dealt(old(state), state)
      ensures Ended(state, ran) && NoneReady(compiled, state) && HasOutcome(state, ran)
      ensures OnlyUses(old(state), state, ran.completion)
    {
      hide Conserved, SnapshotSound, Wired, Reached, Dealt, Ended, Committable, RetryActivation, CommitBranch,
        CommitActivation;
      hide CommitsTo, Unused, OnlyUses;
      BranchUses(state, ran);
      CommitsAs(compiled, state, ran, world.route(tick, ran.activation));
      BranchWorks(compiled, state, ran);
      BranchHasOutcome(state, ran);
      BranchMakes(compiled, state, ran);
      Do(CommitOne(ran), CommitBranch(state, ran).value);
      ok := CommitEvent(step + 1, commits + 1);
    }

    method CommitStandaloneItem(ran: Ran) returns (ok: bool, ghost fired: seq<Firing>)
      requires Valid() && commits < compiled.maxSteps && Committable(state, ran)
      requires ran.activation.sourceSet.None? && ran.cause.None? && ran.retry.None?
      modifies this`state, this`states, this`turns, this`durable, this`tick
      ensures Valid() && CommitsTo(compiled, old(state), ran, world.route(old(tick), ran.activation), fired, state)
      ensures ok ==>
        Dealt(old(state), state) && Ended(state, ran)
          && durable == old(durable) + [Snapshot(state, step + 1, commits + 1)]
      ensures ok ==> NoneReady(compiled, state)
      ensures OnlyUses(old(state), state, ran.completion)
      ensures |durable| <= |old(durable)| + 1 && old(durable) <= durable
    {
      hide Conserved, SnapshotSound, Wired, Reached, Dealt, Ended, Committable, CommitActivation, Appends,
        NoneReady, FireAll;
      hide AllReady, KeepsNumbers, OnlyUses, MadeOfContributions, QueuedAsFired;
      var dispatch := world.route(tick, ran.activation);
      fired := [];
      var committed := CommitActivation(compiled, state, ran, dispatch);
      KeepsOwnNumbers(state);
      KeepingUsesNone(state, state, ran.completion);
      if committed.Err? {
        return false, fired;
      }
      StandaloneWorks(compiled, state, ran, dispatch);
      ghost var before := state;
      StandaloneMakes(compiled, state, ran, dispatch);
      Do(CommitStandalone(ran, dispatch), committed.value);
      ghost var routed := state;
      ok, fired := MaterializeReadyJoins();
      KeepsNumbersOn(before, routed, state);
      KeepingUsesNone(before, state, ran.completion);
      if !ok {
        return;
      }
      AppendsOn(before, routed, state);
      StaysEnded(routed, state, ran);
      ok := CommitEvent(step + 1, commits + 1);
    }

    /** Commits the items of a batch in queue order, holding those in `held` back; the
        queue always starts with what is left of the batch. Each item is saved as ended,
        under the step it was counted for. */
    method CommitBatchItems(results: seq<Ran>, ghost held: seq<Activation>) returns (ok: bool)
      requires Valid() && InBatch(state, Items(results) + held) && commits + |results| <= compiled.maxSteps
      requires forall i :: 0 <= i < |results| ==> !FailsRun(results[i])
      requires SettledApartFrom(state, {}) && NoneReady(compiled, state) && AllUnused(state, results)
      modifies this
      ensures Valid() && old(commits) <= commits <= old(commits) + |results|
      ensures ok ==> SettledApartFrom(state, SetsOf(results)) && NoneReady(compiled, state)
      ensures ok ==> InBatch(state, held) && step == old(step) + |results| && forall i :: 0 <= i < |results| ==>
        Ended(state, results[i])
      ensures ok ==> |durable| == |old(durable)| + |results| && old(durable) <= durable
      ensures ok ==> forall i :: 0 <= i < |results| ==>
        SavedEnded(durable[|old(durable)| + i], old(step) + i + 1, results[i])
    {
      hide Conserved, SnapshotSound, Wired, Reached, InBatch, Dealt, Ended, Committable, CommitsTo, NoneReady,
        SettledApartFrom;
      hide SetsOf, OnlyUnstarted, Unused, AllUnused, OnlyUses;
      DistinctResults(compiled, state, results, held);
      SettledApartFromMore(state, {}, SetsOf(results));
      for index := 0 to |results|
        invariant Valid() && InBatch(state, Items(results[index..]) + held) && commits == old(commits) + index
        invariant forall i :: 0 <= i < index ==> Ended(state, results[i])
        invariant SettledApartFrom(state, SetsOf(results)) && NoneReady(compiled, state)
        invariant AllUnused(state, results[index..])
        invariant |durable| == |old(durable)| + index && old(durable) <= durable
        invariant forall i :: 0 <= i < index ==> SavedEnded(durable[|old(durable)| + i], old(step) + i + 1, results[i])
      {
        FirstOfBatch(compiled, state, results[index..], held);
        FirstIsUnused(state, results, index);
        ghost var before := state;
        CommittableIsFirst(state, results[index]);
        ghost var fired, dispatch := [], world.route(tick, results[index].activation);
        ok, fired := CommitBatchItem(results[index]);
        if !ok {
          return;
        }
        RestAreUnused(before, state, results, index);
        CommitLeavesOthers(compiled, before, results[index], dispatch, fired, state);
        InSetsOf(results, index);
        StaySettledApartFrom(compiled, before, state, SetsOf(results));
        assert results[index..][1..] == results[index + 1..];
        assert (Items(results[index..]) + held)[1..] == Items(results[index + 1..]) + held;
        BatchShrinks(compiled, before, results[index], state, Items(results[index..]) + held);
        forall i | 0 <= i < index
          ensures Ended(state, results[i])
        {
          EndedBefore(before, state, results[i]);
        }
        step := step + 1;
        commits := commits + 1;
      }
      assert results[|results|..] == [] && Items([]) + held == held;
      return true;
    }

    // ----- taking and running a batch -----

    /** The next batch: the front of the queue, as far as parallelism and the steps
        left allow; never empty, and refused once the steps are used up. */
    method NextBatch() returns (ok: bool, batch: seq<Activation>)
      requires Valid() && state.queue != []
      ensures ok <==> step <= compiled.maxSteps
      ensures ok ==>
        batch != [] && batch <= state.queue && |batch| <= compiled.maxParallelism
          && step + |batch| <= compiled.maxSteps + 1
      ensures ok ==>
        |batch| == |state.queue| || |batch| == compiled.maxParallelism || step + |batch| == compiled.maxSteps + 1
    {
      var remaining := compiled.maxSteps - step + 1;
      if remaining <= 0 {
        return false, [];
      }
      var size := if compiled.maxParallelism < |state.queue| then compiled.maxParallelism else |state.queue|;
      size := if remaining < size then remaining else size;
      return true, state.queue[..size];
    }

    /** Starts the items of a batch, each with an event. */
    method EmitBatchStarts(batch: seq<Activation>) returns (ok: bool)
      requires Valid() && batch <= state.queue && InBatch(state, []) && NoneReady(compiled, state)
      modifies this`state, this`states, this`turns, this`durable, this`tick
      ensures old(durable) <= durable
      ensures Valid() && state.queue == old(state).queue && state.activations.Keys == old(state).activations.Keys
      ensures state.sourceSets == old(state).sourceSets && NoneReady(compiled, state)
      ensures ok ==>
        InBatch(state, batch) && state == StartAll(old(state), batch) && |durable| == |old(durable)| + |batch|
    {
      hide Conserved, SnapshotSound, Wired, Reached, InBatch, StartActivation;
      for index := 0 to |batch|
        invariant Valid() && state.queue == old(state).queue && InBatch(state, batch[..index])
        invariant old(durable) <= durable && NoneReady(compiled, state)
        invariant state == StartAll(old(state), batch[..index]) && |durable| == |old(durable)| + index
        invariant state.activations.Keys == old(state).activations.Keys && state.sourceSets == old(state).sourceSets
      {
        StartWorks(compiled, state, batch, index);
        StartOneMore(old(state), batch, index);
        StartKeepsKeys(state, batch[index].id);
        StartMakes(compiled, state, batch[index].id);
        Do(StartOne(batch[index].id), StartActivation(state, batch[index].id).value);
        ok := CommitEvent(step, commits);
        if !ok {
          return;
        }
      }
      assert batch[..|batch|] == batch;
      return true;
    }

    /** The order in which the running nodes of a batch end: any order. */
    method Arrivals(count: nat) returns (ranks: seq<nat>)
      ensures |ranks| == count && forall i :: 0 <= i < count ==> 1 <= ranks[i] <= count
      ensures forall i, j :: 0 <= i < j < count ==> ranks[i] != ranks[j]
    {
      var running := Indexes(count);
      ranks := seq(count, _ => 0);
      while running != {}
        invariant |ranks| == count && |running| <= count && forall i :: i in running ==> 0 <= i < count
        invariant forall i :: 0 <= i < count && i !in running ==> 1 <= ranks[i] <= count - |running|
        invariant forall i, j :: 0 <= i < j < count && i !in running && j !in running ==> ranks[i] != ranks[j]
        decreases |running|
      {
        var next :| next in running;
        running := running - {next};
        ranks := ranks[next := count - |running|];
      }
    }

    /** Runs the nodes of a batch; all have ended before anything is committed, each
        with its own completion number, later than all there were. */
    method ExecuteBatch(batch: seq<Activation>) returns (results: seq<Ran>, interrupted: set<nat>)
      requires Valid()
      modifies this`state, this`states, this`turns, this`tick
      ensures Valid() && state == old(state).(nextCompletion := old(state).nextCompletion + |batch|)
      ensures old(NoneReady(compiled, state)) ==> NoneReady(compiled, state)
      ensures Items(results) == batch
      ensures |results| == |batch|
      ensures forall i :: 0 <= i < |batch| ==> RanAs(results[i], batch[i], world.run(old(tick) + i, batch[i]))
      ensures interrupted == set i | 0 <= i < |batch| && world.run(old(tick) + i, batch[i]).interrupted :: batch[i].id
      ensures forall i :: 0 <= i < |results| ==>
        old(state).nextCompletion < results[i].completion <= state.nextCompletion
      ensures forall i, j :: 0 <= i < j < |results| ==> results[i].completion != results[j].completion
      ensures AllUnused(state, results)
    {
      hide Conserved, SnapshotSound, Wired, Reached, NoneReady, Makes, NumbersSound, AllUnused, KeepsNumbers;
      EveryStateIsNumbered(compiled, states, turns, |turns|);
      var ranks := Arrivals(|batch|);
      results, interrupted := [], {};
      for index := 0 to |batch|
        invariant |results| == index
        invariant forall i :: 0 <= i < index ==>
                    RanAs(results[i], batch[i], world.run(tick + i, batch[i]))
                      && results[i].completion == state.nextCompletion + ranks[i]
        invariant interrupted == set i | 0 <= i < index && world.run(tick + i, batch[i]).interrupted :: batch[i].id
      {
        var outcome := world.run(tick + index, batch[index]);
        if outcome.interrupted {
          interrupted := interrupted + {batch[index].id};
        }
        results := results
          + [Ran(batch[index], outcome.result, outcome.cause, outcome.retry, state.nextCompletion + ranks[index])];
      }
      DrawnAreUnused(state, |batch|, results);
      NumberingMakes(compiled, state, state.nextCompletion + |batch|);
      Do(Numbered(state.nextCompletion + |batch|), state.(nextCompletion := state.nextCompletion + |batch|));
      tick := tick + |batch|;
    }

    // ----- releasing a set -----

    /** Whatever was saved since is a state from which a resume goes on releasing the
        set, or failing it. */
    ghost predicate SavedUnderway(since: nat, id: nat, selected: seq<nat>, failed: bool)
      reads this
    {
      since <= |durable| && forall i :: since <= i < |durable| ==> Underway(durable[i].state, id, selected, failed)
    }

    /** The set is being released or failed. */
    ghost predicate Leaving(id: nat)
      reads this
    {
      id in state.sourceSets && Underway(state, id, state.sourceSets[id].selected, state.sourceSets[id].failed)
    }

    /** Everything saved since says so, with this selection. */
    twostate predicate SavedLeaving(id: nat)
      reads this
    {
      id in old(state).sourceSets
        && SavedUnderway(|old(durable)|, id, old(state).sourceSets[id].selected, old(state).sourceSets[id].failed)
    }

    /** Cancels the queued branches that were not selected, one event each. It gets
        through only if none of them has been started. */
    method CancelQueuedBranches(id: nat) returns (ok: bool)
      requires Valid() && Leaving(id)
      modifies this`state, this`states, this`turns, this`durable, this`tick
      ensures old(durable) <= durable
      ensures Valid() && Progresses(old(state), state, id) && Settles(old(state), state)
      ensures SavedLeaving(id)
      ensures Unrelated(state.queue, id) == Unrelated(old(state).queue, id)
      ensures ok ==> NextUnselected(state.queue, id, state.sourceSets[id].selected) == |state.queue|
      ensures ok ==> Releasable(old(state), id)
      ensures (forall at: nat :: world.accepts(at)) ==> (ok <==> Releasable(old(state), id))
    {
      hide Conserved, SnapshotSound, Wired, Reached, Settles, Releasable, CancelAt, ReadyAt, Unrelated, Progresses;
      ghost var selected, failed, since := state.sourceSets[id].selected, state.sourceSets[id].failed, |durable|;
      NothingProgresses(state, id);
      while true
        invariant Valid() && Underway(state, id, selected, failed) && Progresses(old(state), state, id)
        invariant Settles(old(state), state)
        invariant old(durable) <= durable && SavedUnderway(since, id, selected, failed)
        invariant Unrelated(state.queue, id) == Unrelated(old(state).queue, id)
        invariant Releasable(old(state), id) <==> Releasable(state, id)
        decreases |state.queue|
      {
        var index := NextUnselected(state.queue, id, state.sourceSets[id].selected);
        if index == |state.queue| {
          NothingToCancel(state, id);
          return true;
        }
        CancelWorks(compiled, state, id, index);
        var canceled := CancelNext(state, id);
        if canceled.Err? {
          StuckOn(state, id, index);
          return false;
        }
        SettlesOn(old(state), state, canceled.value);
        ProgressesOn(old(state), state, canceled.value, id);
        StaysUnderway(state, canceled.value, id);
        CancelMakes(compiled, state, id);
        Do(CancelOne(id), canceled.value);
        LeavingIsCaughtUp(compiled, state, id, selected, failed);
        ok := CommitEvent(step, commits);
        if !ok {
          return;
        }
      }
    }

    /** Supersedes the completed branches that were not selected, one event each. */
    method SupersedeBranches(id: nat) returns (ok: bool)
      requires Valid() && Leaving(id)
      modifies this`state, this`states, this`turns, this`durable, this`tick
      ensures old(durable) <= durable
      ensures Valid() && Progresses(old(state), state, id) && Settles(old(state), state)
      ensures state.queue == old(state).queue
      ensures SavedLeaving(id)
      ensures state.sourceSets[id].outcomes.Keys == old(state).sourceSets[id].outcomes.Keys
      ensures ok ==> forall branch :: branch in state.sourceSets[id].branches ==>
        !CompletedButUnselected(state.sourceSets[id], branch)
      ensures (forall at: nat :: world.accepts(at)) ==> ok
    {
      hide Conserved, SnapshotSound, Wired, Reached, Settles, CompletedButUnselected, Supersede, Progresses,
        KeepsNumbers;
      ghost var selected, failed, since := state.sourceSets[id].selected, state.sourceSets[id].failed, |durable|;
      var branches := state.sourceSets[id].branches;
      NothingProgresses(state, id);
      for index := 0 to |branches|
        invariant Valid() && Underway(state, id, selected, failed) && Progresses(old(state), state, id)
        invariant Settles(old(state), state)
        invariant state.queue == old(state).queue && old(durable) <= durable
        invariant SavedUnderway(since, id, selected, failed)
        invariant state.sourceSets[id].outcomes.Keys == old(state).sourceSets[id].outcomes.Keys
        invariant state.sourceSets[id].branches == branches
        invariant forall i :: 0 <= i < index ==> !CompletedButUnselected(state.sourceSets[id], branches[i])
      {
        var branch := branches[index];
        if CompletedButUnselected(state.sourceSets[id], branch) {
          SupersedeWorks(compiled, state, id, branch);
          CompletedHasOutcome(state.sourceSets[id], branch);
          SettlesOn(old(state), state, Supersede(state, id, branch));
          ProgressesOn(old(state), state, Supersede(state, id, branch), id);
          StaysUnderway(state, Supersede(state, id, branch), id);
          SupersedeMakes(compiled, state, id, branch);
          Do(SupersedeOne(id, branch), Supersede(state, id, branch));
          LeavingIsCaughtUp(compiled, state, id, selected, failed);
          ok := CommitEvent(step, commits);
          if !ok {
            return;
          }
        }
      }
      return true;
    }

    /** Closes what joins expect of the branches that were not selected: afterwards none
        waits for them. */
    method CloseUnselectedBranchExpectations(id: nat)
      requires Valid() && Leaving(id)
      requires state.sourceSets[id].outcomes.Keys == Elements(state.sourceSets[id].branches)
      modifies this`state, this`states, this`turns
      ensures Valid() && state == old(state).(buckets := state.buckets) && UnselectedTold(compiled, state, id)
    {
      hide Conserved, SnapshotSound, Wired, Reached, CloseAll, AllTold, StillTold;
      var group := state.sourceSets[id];
      for index := 0 to |group.branches|
        invariant Valid() && state == old(state).(buckets := state.buckets)
        invariant forall i :: 0 <= i < index && group.branches[i] !in group.selected ==>
                    group.branches[i] in group.outcomes
                      && AllTold(compiled, state, group.outcomes[group.branches[i]].activation)
      {
        var branch := group.branches[index];
        if branch !in group.selected {
          assert branch in Elements(group.branches);
          CloseWorks(compiled, state, id, branch);
          var closed := CloseJoinExpectations(compiled, state, group.outcomes[branch].activation, map[]).value;
          forall i | 0 <= i < index && group.branches[i] !in group.selected
            ensures AllTold(compiled, closed, group.outcomes[group.branches[i]].activation)
          {
            StillAllTold(compiled, state, closed, group.outcomes[group.branches[i]].activation);
          }
          CloseMakes(compiled, state, id, branch);
          Do(CloseOne(id, branch), closed);
        }
      }
    }

    /** Releases the selected branches in order, those not released before. */
    method ReleaseBranches(id: nat) returns (ok: bool)
      requires Valid() && Leaving(id) && state.sourceSets[id].decided
      requires forall branch :: branch in state.sourceSets[id].selected ==> branch in state.sourceSets[id].outcomes
      requires forall branch :: branch in state.sourceSets[id].branches ==>
        !CompletedButUnselected(state.sourceSets[id], branch)
      modifies this`state, this`states, this`turns, this`durable, this`tick
      ensures old(durable) <= durable
      ensures Valid() && Progresses(old(state), state, id) && Settles(old(state), state)
      ensures old(state).queue <= state.queue
      ensures StillTold(compiled, old(state), state)
      ensures SavedLeaving(id)
      ensures state.sourceSets[id].outcomes.Keys == old(state).sourceSets[id].outcomes.Keys
      ensures forall branch :: branch in state.sourceSets[id].branches ==>
        !CompletedButUnselected(state.sourceSets[id], branch)
      ensures ok ==> forall branch :: branch in state.sourceSets[id].selected ==>
        IsCommitted(state.sourceSets[id], branch)
    {
      hide Conserved, SnapshotSound, Wired, Reached, Settles, ReleaseBranch, StillTold, Progresses, KeepsNumbers;
      var selected := state.sourceSets[id].selected;
      ghost var since, failed := |durable|, false;
      NothingProgresses(state, id);
      SameToldAs(compiled, state, state);
      for index := 0 to |selected|
        invariant Valid() && Underway(state, id, selected, failed) && Progresses(old(state), state, id)
        invariant Settles(old(state), state)
        invariant old(state).queue <= state.queue && old(durable) <= durable
        invariant SavedUnderway(since, id, selected, failed)
        invariant StillTold(compiled, old(state), state)
        invariant state.sourceSets[id].outcomes.Keys == old(state).sourceSets[id].outcomes.Keys
        invariant forall branch :: branch in state.sourceSets[id].branches ==>
          !CompletedButUnselected(state.sourceSets[id], branch)
        invariant forall i :: 0 <= i < index ==> IsCommitted(state.sourceSets[id], selected[i])
      {
        var branch := selected[index];
        var outcome := state.sourceSets[id].outcomes[branch];
        if !outcome.committed {
          var released := ReleaseBranch(compiled, state, id, branch, world.route(tick, outcome.activation));
          if released.Err? {
            return false;
          }
          ReleaseWorks(compiled, state, id, branch, world.route(tick, outcome.activation));
          SettlesOn(old(state), state, released.value);
          ProgressesOn(old(state), state, released.value, id);
          StillToldOn(compiled, old(state), state, released.value);
          ReleaseMakes(compiled, state, id, branch, world.route(tick, outcome.activation));
          Do(ReleaseOne(id, branch, world.route(tick, outcome.activation)), released.value);
          LeavingIsCaughtUp(compiled, state, id, selected, failed);
          ok := CommitEvent(step, commits);
          if !ok {
            return;
          }
        }
      }
      return true;
    }

    /** Releases a decided set. When it gets through, none of its branches is queued,
        every one is done, the selected ones are routed and committed, all other
        completed ones are superseded and no join waits for them, and what else was
        queued is still there, in order and in front. Whatever was saved on the way is a
        state from which a resume releases the same selection; so this covers every
        release after a crash, too. A branch that has been started but has no outcome,
        because it was interrupted in the same batch, keeps it from getting through. */
    method ReleaseSourceSet(id: nat, selected: seq<nat>) returns (ok: bool)
      requires Valid() && id in state.sourceSets && !state.sourceSets[id].settled && !state.sourceSets[id].failed
      requires state.sourceSets[id].decided || Enabled(compiled, state, Decided(id, selected))
      modifies this`state, this`states, this`turns, this`durable, this`tick
      ensures old(durable) <= durable
      ensures Valid() && Settles(old(state), state) && OthersStay(old(state), state, id)
      ensures SavedUnderway(|old(durable)|, id,
        if old(state).sourceSets[id].decided then old(state).sourceSets[id].selected else selected, false)
      ensures ok ==>
        ReleasedFully(state, id) && UnselectedTold(compiled, state, id)
          && Unrelated(old(state).queue, id) <= state.queue
      ensures ok ==> state.sourceSets[id].branches == old(state).sourceSets[id].branches
      ensures ok ==>
        state.sourceSets[id].selected ==
          if old(state).sourceSets[id].decided then old(state).sourceSets[id].selected else selected
      ensures ok ==> NoneReady(compiled, state) && Releasable(DecideSet(old(state), id, selected), id)
    {
      hide Conserved, SnapshotSound, Wired, Reached, Settles, OthersStay, Enabled;
      ghost var began := state;
      DecideWorks(compiled, state, id, selected);
      if state.sourceSets[id].decided {
        DecidedStays(compiled, state, id, selected);
      } else {
        DecideMakes(compiled, state, id, selected);
        Do(Decided(id, selected), DecideSet(state, id, selected));
      }
      assert Valid();
      hide *;
      ok := ReleaseDecided(id);
      SettlesOn(began, DecideSet(began, id, selected), state);
      OthersStayOn(began, DecideSet(began, id, selected), state, id);
    }

    method ReleaseDecided(id: nat) returns (ok: bool)
      requires Valid() && Leaving(id) && state.sourceSets[id].decided
      modifies this`state, this`states, this`turns, this`durable, this`tick
      ensures old(durable) <= durable
      ensures Valid() && Settles(old(state), state) && OthersStay(old(state), state, id)
      ensures SavedLeaving(id)
      ensures ok ==>
        ReleasedFully(state, id) && UnselectedTold(compiled, state, id)
          && Unrelated(old(state).queue, id) <= state.queue
      ensures ok ==> state.sourceSets[id].branches == old(state).sourceSets[id].branches
      ensures ok ==> state.sourceSets[id].selected == old(state).sourceSets[id].selected
      ensures ok ==> NoneReady(compiled, state) && Releasable(old(state), id)
    {
      hide Conserved, SnapshotSound, Wired, Reached, Settles, Releasable, Unrelated, NoneReady, ReleasedFully;
      hide CompletedButUnselected, SettleSet, UnselectedTold, StillTold;
      ghost var began := state;
      ok := DiscardUnselected(id);
      if !ok {
        return;
      }
      ghost var closed := state;
      SelectedHaveOutcomes(compiled, state, id);
      ok := ReleaseBranches(id);
      SettlesOn(began, closed, state);
      ProgressesOn(began, closed, state, id);
      if !ok {
        return;
      }
      ghost var released := state;
      UnselectedStillTold(compiled, closed, released, id);
      ok := FinishRelease(id);
      SettlesOn(began, released, state);
      OthersStayOn(began, released, state, id);
    }

    /** What releasing and failing a set begin with: its branches that were not selected
        are canceled, or superseded, and no join waits for them any more. */
    method DiscardUnselected(id: nat) returns (ok: bool)
      requires Valid() && Leaving(id)
      modifies this`state, this`states, this`turns, this`durable, this`tick
      ensures old(durable) <= durable
      ensures Valid() && Settles(old(state), state) && Progresses(old(state), state, id)
      ensures SavedLeaving(id)
      ensures ok ==> UnselectedTold(compiled, state, id) && state.queue == Unrelated(old(state).queue, id)
      ensures ok ==> state.sourceSets[id].outcomes.Keys == Elements(state.sourceSets[id].branches)
      ensures ok ==> forall branch :: branch in state.sourceSets[id].branches ==>
        !CompletedButUnselected(state.sourceSets[id], branch)
      ensures ok ==> Releasable(old(state), id)
      ensures (forall at: nat :: world.accepts(at)) ==> (ok <==> Releasable(old(state), id))
    {
      hide Witnessed, OthersStay;
      hide Conserved, SnapshotSound, Wired, Reached, Settles, Releasable, Unrelated, CompletedButUnselected,
        UnselectedTold;
      ghost var began := state;
      ok := CancelQueuedBranches(id);
      if !ok {
        return;
      }
      ghost var canceled := state;
      NoneLeft(compiled, state, id);
      ok := SupersedeBranches(id);
      SettlesOn(began, canceled, state);
      ProgressesOn(began, canceled, state, id);
      if !ok {
        return;
      }
      ghost var superseded := state;
      CloseUnselectedBranchExpectations(id);
      BucketsProgress(began, superseded, state, id);
      BucketsSettle(superseded, state);
      SettlesOn(began, superseded, state);
    }

    /** Once all branches are released: joins that are ready now fire, and the set is settled. */
    method FinishRelease(id: nat) returns (ok: bool)
      requires Valid() && Leaving(id) && state.sourceSets[id].decided && UnselectedTold(compiled, state, id)
      requires state.sourceSets[id].outcomes.Keys == Elements(state.sourceSets[id].branches)
      requires forall branch :: branch in state.sourceSets[id].branches ==>
        !CompletedButUnselected(state.sourceSets[id], branch)
      requires forall branch :: branch in state.sourceSets[id].selected ==> IsCommitted(state.sourceSets[id], branch)
      modifies this`state, this`states, this`turns, this`tick
      ensures Valid() && Settles(old(state), state) && old(state).queue <= state.queue
      ensures OthersStay(old(state), state, id)
      ensures id in state.sourceSets && state.sourceSets[id].branches == old(state).sourceSets[id].branches
      ensures state.sourceSets[id].selected == old(state).sourceSets[id].selected
      ensures ok ==> ReleasedFully(state, id) && UnselectedTold(compiled, state, id) && NoneReady(compiled, state)
    {
      hide Conserved, SnapshotSound, Wired, Reached, Settles, NoneReady, ReleasedFully, CompletedButUnselected,
        UnselectedTold;
      hide StillTold, FireAll, AllReady;
      ghost var fired;
      ok, fired := MaterializeReadyJoins();
      AppendingSettles(old(state), state);
      if !ok {
        return;
      }
      ghost var joined := state;
      UnselectedStillTold(compiled, old(state), joined, id);
      BranchesDealt(state.sourceSets[id]);
      SettleMakes(compiled, state, id);
      SettlingSettles(compiled, state, id);
      Do(Settled(id), SettleSet(state, id));
      SettlesOn(old(state), joined, state);
      ReleaseCompletes(compiled, joined, id, state);
      SettlingKeepsTold(compiled, joined, id);
    }

    /** Fails a set: all its branches are canceled or superseded, and no join waits for
        any. */
    method FailSourceSet(id: nat) returns (done: bool)
      requires Valid() && id in state.sourceSets && !state.sourceSets[id].decided
      modifies this`state, this`states, this`turns, this`durable, this`tick
      ensures old(durable) <= durable
      ensures Valid() && Settles(old(state), state) && OthersStay(old(state), state, id)
      ensures SavedUnderway(|old(durable)|, id, [], true)
      ensures done ==>
        FailedFully(state, id) && UnselectedTold(compiled, state, id) && state.queue == Unrelated(old(state).queue, id)
      ensures (forall at: nat :: world.accepts(at)) ==> (done <==> Releasable(FailSet(old(state), id), id))
    {
      hide Conserved, SnapshotSound, Wired, Reached, Settles, OthersStay;
      ghost var began := state;
      FailWorks(compiled, state, id);
      FailMakes(compiled, state, id);
      Do(FailedSet(id), FailSet(state, id));
      assert Valid() && state.queue == began.queue;
      hide *;
      LeavingIs(id);
      done := DiscardUnselected(id);
      SettlesOn(began, FailSet(began, id), state);
      OthersProgress(began, FailSet(began, id), state, id);
      if done {
        StaysUnderway(FailSet(began, id), state, id);
        FailureCompletes(compiled, state, id);
      }
    }

    // ----- settling -----

    /** Settles a set: it is left alone while its outcome is open, released when every
        way its outstanding branches may turn out satisfies the policy, and failed when
        none does. */
    method SettleSourceSet(id: nat) returns (settling: Settling)
      requires Valid()
      modifies this`state, this`states, this`turns, this`durable, this`tick
      ensures old(durable) <= durable
      ensures Valid() && Settles(old(state), state) && OthersStay(old(state), state, id)
      ensures SettlesAs(compiled, old(state), state, id, settling)
    {
      hide HasFailure;
      hide Conserved, SnapshotSound, Wired, Reached, Settles, ReleasedFully, FailedFully, UnselectedTold,
        NoneReady, Unrelated;
      hide CertainlySatisfied, NeverSatisfied, DecideSet, FailSet, Releasable;
      SettlesNothing(state);
      if id !in state.sourceSets || state.sourceSets[id].settled {
        return SetLeft;
      }
      var group := state.sourceSets[id];
      if group.failed {
        FailedIsUndecided(compiled, state, id);
        var done := FailSourceSet(id);
        return if done then SetFailed else SetStopped;
      }
      if group.decided {
        var released := ReleaseSourceSet(id, group.selected);
        return if released then SetReleased else SetStopped;
      }
      SetIsCounted(compiled, state, id);
      hide Counted, DistinctIndexes, Successes, Decide;
      var successes := FindSuccesses(group);
      DecideIsExact(group, successes);
      var decision := Decide(group, successes);
      if decision.None? {
        return SetStopped;
      }
      if !decision.value.ready {
        return SetOpen;
      }
      if decision.value.failed {
        var done := FailSourceSet(id);
        return if done then SetFailed else SetStopped;
      }
      SuccessSelects(group, successes);
      var released := ReleaseSourceSet(id, decision.value.selected);
      return if released then SetReleased else SetStopped;
    }

    /** Settles sets one by one; if that goes through, each is settled or still open, and
        so are then all sets if the others were. */
    method SettleSourceSets(ids: seq<nat>) returns (ok: bool)
      requires Valid() && forall id :: id in ids ==> id in state.sourceSets
      requires SettledApartFrom(state, Elements(ids))
      requires NoneReady(compiled, state) || exists i :: 0 <= i < |ids| && BeingLeft(state, ids[i])
      modifies this`state, this`states, this`turns, this`durable, this`tick
      ensures Valid() && Settles(old(state), state)
      ensures ok ==> forall id :: id in ids ==> SettledOrOpen(state, id)
      ensures ok ==> SettledApartFrom(state, {}) && NoneReady(compiled, state)
    {
      hide Conserved, SnapshotSound, Wired, Reached, Settles, SettlesAs, SettledOrOpen, SettledApartFrom, OnlyUnstarted;
      SettlesNothing(state);
      for index := 0 to |ids|
        invariant Valid() && Settles(old(state), state)
        invariant forall i :: 0 <= i < index ==> SettledOrOpen(state, ids[i])
        invariant forall i :: index <= i < |ids| ==> ids[i] in state.sourceSets
        invariant SettledApartFrom(state, Elements(ids))
        invariant NoneReady(compiled, state) || exists i :: index <= i < |ids| && BeingLeft(state, ids[i])
      {
        ghost var before := state;
        var settling := SettleSourceSet(ids[index]);
        SettlesOn(old(state), before, state);
        if settling == SetFailed || settling == SetStopped {
          return false;
        }
        SettlingCatchesUp(compiled, before, state, ids[index], settling);
        SettledAs(compiled, before, state, ids[index], settling);
        SettledIsThere(state, ids[index]);
        SettlingOneStays(compiled, before, state, ids[index], Elements(ids));
        forall i | 0 <= i < index
          ensures SettledOrOpen(state, ids[i])
        {
          if ids[i] != ids[index] {
            StaysSettledOrOpen(before, state, ids[i], ids[index]);
          }
        }
      }
      SettledApartFromNone(state, Elements(ids));
      return true;
    }

    /** After a resume: settles whatever sets the crash left unsettled. */
    method ReconcileSourceSets() returns (ok: bool)
      requires Valid() && CaughtUp(compiled, state)
      modifies this`state, this`states, this`turns, this`durable, this`tick
      ensures Valid() && Settles(old(state), state)
      ensures ok ==> SettledApartFrom(state, {}) && NoneReady(compiled, state)
    {
      hide Conserved, SnapshotSound, Wired, Reached, Settles, Undetermined;
      var unsettled, ids := set id | id in state.sourceSets && !state.sourceSets[id].settled, [];
      while unsettled != {}
        invariant forall id :: id in state.sourceSets && !state.sourceSets[id].settled ==> id in unsettled || id in ids
        invariant forall id :: id in unsettled || id in ids ==> id in state.sourceSets
        decreases |unsettled|
      {
        var id :| id in unsettled;
        unsettled, ids := unsettled - {id}, ids + [id];
      }
      ok := SettleSourceSets(ids);
    }

    // ----- one batch -----

    /** Takes a batch off the ready queue, runs it, commits it and settles its sets.
        If that goes through, the step has grown by the size of the batch, which is
        at least one, none of its items is running any more, their sets are settled or
        still open, and everything queued is ready again. */
    method AdvanceBatch() returns (ok: bool, batch: seq<Activation>)
      requires Valid() && state.queue != [] && InBatch(state, []) && SettledApartFrom(state, {})
      requires NoneReady(compiled, state)
      modifies this
      ensures Valid() && old(commits) <= commits && (ok ==> SettledApartFrom(state, {}) && NoneReady(compiled, state))
      ensures old(step) > compiled.maxSteps ==> !ok && state == old(state)
      ensures ok ==> batch != [] && batch <= old(state).queue && step == old(step) + |batch| && InBatch(state, [])
      ensures ok ==>
        |batch| == Least(compiled.maxParallelism, Least(|old(state).queue|, compiled.maxSteps - old(step) + 1))
      ensures ok ==> forall i :: 0 <= i < |batch| ==>
        batch[i].id in state.activations && IdleOrDone(state.activations[batch[i].id].phase)
      ensures ok ==> forall i :: 0 <= i < |batch| && batch[i].sourceSet.Some? ==>
        SettledOrOpen(state, batch[i].sourceSet.value)
    {
      hide Conserved, SnapshotSound, Wired, Reached, InBatch, Settles, SettledOrOpen, Ended, SavedEnded, StartAll;
      hide SettledApartFrom;
      ghost var began := state;
      ok, batch := NextBatch();
      if !ok {
        return;
      }
      ok := EmitBatchStarts(batch);
      if !ok {
        return;
      }
      ghost var started := state;
      var results, interrupted := ExecuteBatch(batch);
      BatchStays(started, state, batch);
      SameSetsStaySettled(began, state, {});
      if interrupted != {} {
        var stopped := HandleBatchInterrupts(results, interrupted);
        return false, batch;
      }
      var failed := FirstFailure(results);
      if failed < |results| {
        return false, batch;
      }
      assert Items(results) + [] == batch;
      ok := CommitBatchItems(results, []);
      if !ok {
        return;
      }
      var ids := SourceSetsOf(results);
      SetsAreThere(compiled, state, results, ids);
      SetsOfAre(results, ids);
      ghost var committed := state;
      ok := SettleSourceSets(ids);
      SettledIsReady(compiled, committed, state);
      EndedStayDone(committed, state, results);
    }

    /** The sets the results of a batch belong to, each once. */
    method SourceSetsOf(results: seq<Ran>) returns (ids: seq<nat>)
      ensures forall id :: id in ids <==> exists i :: 0 <= i < |results| && results[i].activation.sourceSet == Some(id)
      ensures forall i, j :: 0 <= i < j < |ids| ==> ids[i] != ids[j]
    {
      ids := [];
      for index := 0 to |results|
        invariant forall id :: id in ids <==> exists i :: 0 <= i < index && results[i].activation.sourceSet == Some(id)
        invariant forall i, j :: 0 <= i < j < |ids| ==> ids[i] != ids[j]
      {
        var sourceSet := results[index].activation.sourceSet;
        if sourceSet.Some? && sourceSet.value !in ids {
          ids := ids + [sourceSet.value];
        }
      }
    }

    /** A batch in which nodes were interrupted: the others are moved in front of them
        and committed first, up to one that failed the run, and being in front they are
        never refused. What is left of the batch is the interrupted ones, and the run
        stops on them. */
    method HandleBatchInterrupts(results: seq<Ran>, interrupted: set<nat>) returns (stopped: bool)
      requires Valid() && InBatch(state, Items(results)) && commits + |results| <= compiled.maxSteps
      requires SettledApartFrom(state, {}) && NoneReady(compiled, state) && AllUnused(state, results)
      modifies this
      ensures Valid() && old(commits) <= commits
      ensures stopped ==> step == old(step) + |Chosen(results, interrupted, false)|
      ensures stopped ==> forall ran :: ran in Chosen(results, interrupted, true) ==>
        IsInterrupted(state, ran.activation.id)
      ensures stopped ==> forall ran :: ran in Chosen(results, interrupted, false) ==>
                ran.activation.id in state.activations && state.activations[ran.activation.id].phase != Running
    {
      hide Conserved, SnapshotSound, Wired, Reached, InBatch, Settles, Reordered, Ended, SavedEnded, SettledOrOpen;
      hide SettledApartFrom, AllUnused, KeepsNumbers;
      SameSetsUse(state, state.(queue := Reordered(state.queue, results, interrupted)), results);
      ReorderWorks(compiled, state, results, interrupted);
      SameSetsStaySettled(state, state.(queue := Reordered(state.queue, results, interrupted)), {});
      PermutingMakes(compiled, state, Reordered(state.queue, results, interrupted));
      Do(Permuted(Reordered(state.queue, results, interrupted)),
         state.(queue := Reordered(state.queue, results, interrupted)));
      var finished, held := Chosen(results, interrupted, false), Chosen(results, interrupted, true);
      ChosenAtMost(results, interrupted, false);
      var failed := FirstFailure(finished);
      ItemsSplit(finished, failed);
      ChosenAreUnused(state, results, interrupted, false);
      SomeAreUnused(state, finished, failed);
      assert Items(finished) + Items(held) == Items(finished[..failed]) + (Items(finished[failed..]) + Items(held));
      var ok := CommitBatchItems(finished[..failed], Items(finished[failed..]) + Items(held));
      if !ok || failed < |finished| {
        return false;
      }
      assert finished[..failed] == finished;
      var ids := SourceSetsOf(finished);
      SetsAreThere(compiled, state, finished, ids);
      SetsOfAre(finished, ids);
      ghost var committed := state;
      ok := SettleSourceSets(ids);
      EndedStayDone(committed, state, finished);
      if !ok {
        return false;
      }
      stopped := InterruptBatch(held);
    }

    /** The first item whose failure no set will look at. */
    method FirstFailure(results: seq<Ran>) returns (at: nat)
      ensures at <= |results| && (at < |results| ==> FailsRun(results[at]))
      ensures forall i :: 0 <= i < at ==> !FailsRun(results[i])
    {
      at := 0;
      while at < |results| && !FailsRun(results[at])
        invariant at <= |results| && forall i :: 0 <= i < at ==> !FailsRun(results[i])
      {
        at := at + 1;
      }
    }

    method InterruptBatch(held: seq<Ran>) returns (ok: bool)
      requires Valid()
      modifies this`state, this`states, this`turns
      ensures Valid() && (ok ==> forall ran :: ran in held ==> IsInterrupted(state, ran.activation.id))
      ensures state == old(state).(activations := state.activations)
      ensures state.activations.Keys == old(state).activations.Keys
      ensures forall id :: id in old(state).activations ==>
                state.activations[id] == old(state).activations[id]
                  || state.activations[id] == old(state).activations[id].(phase := Interrupted)
    {
      hide Conserved, SnapshotSound, Wired, Reached;
      for index := 0 to |held|
        invariant Valid() && forall i :: 0 <= i < index ==> IsInterrupted(state, held[i].activation.id)
        invariant state == old(state).(activations := state.activations)
        invariant state.activations.Keys == old(state).activations.Keys
        invariant forall id :: id in old(state).activations ==>
                    state.activations[id] == old(state).activations[id]
                      || state.activations[id] == old(state).activations[id].(phase := Interrupted)
      {
        var next := InterruptActivation(state, held[index].activation.id);
        if next.Err? {
          return false;
        }
        InterruptMakes(compiled, state, held[index].activation.id);
        Do(InterruptOne(held[index].activation.id), next.value);
      }
      return true;
    }

    // ----- iterators -----

    /** Pulls one item from an open iterator and schedules it; or closes the iterator and
        settles its set; or fails its set. */
    method PullIterSource(iter: nat) returns (ok: bool)
      requires Valid() && iter in OpenSources(state) && InBatch(state, []) && SettledApartFrom(state, {})
      requires NoneReady(compiled, state)
      modifies this`state, this`states, this`turns, this`durable, this`tick
      ensures Valid() && (ok ==> InBatch(state, []) && SettledApartFrom(state, {}) && NoneReady(compiled, state))
      ensures ok ==> || Unrouted(state) < Unrouted(old(state))
                     || (Unrouted(state) == Unrouted(old(state)) && OpenSources(state) < OpenSources(old(state)))
                     || (Unrouted(state) == Unrouted(old(state)) && OpenSources(state) == OpenSources(old(state))
                         && |state.queue| > |old(state).queue|)
      ensures old(durable) < durable && iter in old(state).iterSources
      ensures match world.pull(old(tick), iter)
              case Item(value, cursor) =>
                && PullItem(compiled, old(state), iter, value, cursor) == Ok(state)
                && PulledOn(old(state), state, iter, cursor)
                && durable == old(durable) + [Snapshot(state, step, commits)]
              case Uncaptured(value, cause) =>
                && PullItem(compiled, old(state), iter, value, None).Ok? && !ok
                && var pulled := PullItem(compiled, old(state), iter, value, None).value;
                && iter in pulled.iterSources && pulled.iterSources[iter].sourceSet in pulled.sourceSets
                && FailedFor(pulled, durable[|old(durable)|].state, iter, cause)
              case NoMore =>
                && CloseIter(old(state), iter) == Ok(durable[|old(durable)|].state)
                && (ok ==> SettledOrOpen(state, old(state).iterSources[iter].sourceSet))
              case Failing(cause) =>
                && old(state).iterSources[iter].sourceSet in old(state).sourceSets
                && !ok && FailedFor(old(state), durable[|old(durable)|].state, iter, cause)
    {
      hide Conserved, SnapshotSound, Wired, Reached, InBatch, PullItem, CloseIter, FailedFor, SettlesAs,
        SettledOrOpen, Settles;
      hide Calms, ReleasedFully, FailedFully, UnselectedTold, Releasable, SettledApartFrom, OnlyUnstarted;
      ghost var before := state;
      var pulled := world.pull(tick, iter);
      OpenIsUndecided(compiled, state, iter);
      match pulled
      case Item(value, cursor) =>
        PullWorks(compiled, state, iter, value, cursor);
        PulledStaySettled(compiled, state, iter, value, cursor);
        PullMakes(compiled, state, iter, value, cursor);
        PullPulls(compiled, state, iter, value, cursor, iter);
        Do(Pulled(iter, value, cursor), PullItem(compiled, state, iter, value, cursor).value);
        SettledIsReady(compiled, before, state);
        ok := CommitEvent(step, commits);
      case NoMore =>
        ok := CloseIterSource(iter);
      case Uncaptured(value, cause) =>
        PullWorks(compiled, state, iter, value, None);
        PullMakes(compiled, state, iter, value, None);
        Do(Pulled(iter, value, None), PullItem(compiled, state, iter, value, None).value);
        FailIterSource(iter, cause);
        return false;
      case Failing(cause) =>
        FailIterSource(iter, cause);
        return false;
    }

    /** Closes an exhausted iterator and settles its set. */
    method CloseIterSource(iter: nat) returns (ok: bool)
      requires Valid() && iter in OpenSources(state) && InBatch(state, []) && SettledApartFrom(state, {})
      requires NoneReady(compiled, state)
      modifies this`state, this`states, this`turns, this`durable, this`tick
      ensures Valid() && (ok ==> InBatch(state, []) && SettledApartFrom(state, {}) && NoneReady(compiled, state))
      ensures ok ==> || Unrouted(state) < Unrouted(old(state))
                     || (Unrouted(state) == Unrouted(old(state)) && OpenSources(state) < OpenSources(old(state)))
      ensures old(durable) < durable && iter in old(state).iterSources
      ensures CloseIter(old(state), iter) == Ok(durable[|old(durable)|].state)
      ensures ok ==> SettledOrOpen(state, old(state).iterSources[iter].sourceSet)
    {
      hide Conserved, SnapshotSound, Wired, Reached, InBatch, CloseIter, SettlesAs, SettledOrOpen, Settles;
      hide Calms, ReleasedFully, FailedFully, UnselectedTold, Releasable, SettledApartFrom, OnlyUnstarted;
      ghost var before := state;
      var id := state.iterSources[iter].sourceSet;
      OpenIsUndecided(compiled, state, iter);
      ExhaustWorks(compiled, state, iter);
      ExhaustMakes(compiled, state, iter);
      Do(Exhausted(iter), CloseIter(state, iter).value);
      ghost var closed := state;
      ok := CommitEvent(step, commits);
      if !ok {
        return;
      }
      var settling := SettleSourceSet(id);
      ok := settling != SetFailed && settling != SetStopped;
      if ok {
        SettlingCatchesUp(compiled, closed, state, id, settling);
        SettledAs(compiled, closed, state, id, settling);
        ExhaustedStaySettled(compiled, before, iter, closed, state);
      }
      SettlesOn(before, closed, state);
      SettlesCalms(closed, state);
      SettledIsReady(compiled, before, state);
    }

    method FailIterSource(iter: nat, cause: Cause)
      requires Valid() && iter in OpenSources(state)
      modifies this`state, this`states, this`turns, this`durable, this`tick
      ensures Valid() && old(durable) < durable
      ensures old(state).iterSources[iter].sourceSet in old(state).sourceSets
      ensures FailedFor(old(state), durable[|old(durable)|].state, iter, cause)
    {
      hide Conserved, SnapshotSound, Wired, Reached, FailIter, FailedFor;
      FailIterWorks(compiled, state, iter, cause);
      FailingIter(state, iter, cause);
      var id := state.iterSources[iter].sourceSet;
      FailIterMakes(compiled, state, iter, cause);
      FailedIterIsCaughtUp(compiled, state, iter, cause);
      Do(FailedIter(iter, cause), FailIter(state, iter, cause));
      var ok := CommitEvent(step, commits);
      if ok {
        var done := FailSourceSet(id);
      }
    }

    /** Pulls items until the queue holds a full batch or no iterator is open. */
    method FillIterQueue() returns (ok: bool)
      requires Valid() && InBatch(state, []) && SettledApartFrom(state, {}) && NoneReady(compiled, state)
      modifies this`state, this`states, this`turns, this`durable, this`tick
      ensures Valid() && (ok ==> InBatch(state, []) && SettledApartFrom(state, {}) && NoneReady(compiled, state))
      ensures ok ==> |state.queue| >= compiled.maxParallelism || OpenSources(state) == {}
    {
      hide Conserved, SnapshotSound, Wired, Reached, InBatch, Unrouted, OpenSources, SettledApartFrom, FailIter,
        SettledOrOpen;
      while |state.queue| < compiled.maxParallelism && OpenSources(state) != {}
        invariant Valid() && InBatch(state, []) && SettledApartFrom(state, {}) && NoneReady(compiled, state)
        decreases Unrouted(state), OpenSources(state), compiled.maxParallelism - |state.queue|
      {
        var iter :| iter in OpenSources(state);
        ok := PullIterSource(iter);
        if !ok {
          return;
        }
      }
      return true;
    }

    // ----- the run loop -----

    predicate HasWork()
      reads this
    {
      state.queue != [] || OpenSources(state) != {}
    }

    /** Runs to the end, or until something fails or interrupts; after a resume, sets
        left unsettled come first. It halts: every batch raises the step, which never
        goes beyond the limit, so at most `maxSteps` items are committed over the whole
        run, however often it is resumed. If it runs to the end, nothing was left undone. */
    method Run(resume: bool) returns (ok: bool)
      requires Valid() && InBatch(state, []) && CaughtUp(compiled, state) && (!resume ==> state.sourceSets == map[])
      modifies this
      ensures Valid() && old(commits) <= commits <= compiled.maxSteps && step <= compiled.maxSteps + 1
      ensures ok ==> WoundUp(state)
      ensures ok ==> forall key :: key in state.buckets && HasContribution(state.buckets[key]) ==>
        Fired(state.joined, key) || WaitsForStopped(compiled, Sent(compiled, states, turns, |turns|), key)
    {
      hide Conserved, SnapshotSound, Wired, Reached, InBatch, OpenSources, Settles, SettledOrOpen, WoundUp;
      if resume {
        ghost var before := state;
        ok := ReconcileSourceSets();
        SettledIsReady(compiled, before, state);
        if !ok {
          return;
        }
      }
      while HasWork()
        invariant Valid() && InBatch(state, []) && SettledApartFrom(state, {}) && old(commits) <= commits
        invariant NoneReady(compiled, state)
        decreases compiled.maxSteps + 1 - step, if HasWork() then 1 else 0
      {
        ok := FillIterQueue();
        if !ok {
          return;
        }
        if state.queue == [] {
          continue;
        }
        var batch;
        ok, batch := AdvanceBatch();
        if !ok {
          return;
        }
      }
      NothingLeftIsWoundUp(compiled, state);
      WoundUpJoins(compiled, states, turns);
      return true;
    }

    lemma LeavingIs(id: nat)
      ensures id in state.sourceSets && Underway(state, id, [], true) ==> Leaving(id)
    {
    }
  }
}
