/** A join may fire before a predecessor that is still to come, and then loses what that one
    sends; the order in which ready joins fire decides it (workflow/workflow.go:3213-3240,
    workflow/join_expectation.go:68-78). */
module LateContribution {
  import opened Options
  import opened Topology
  import opened RunState
  import opened Joins
  import opened Conservation
  import opened Scheduling
  import opened SchedulingRuns
  import opened JoinWaits
  import opened BatchFacts
  import opened BatchTurns

  // The entry feeds two joins, and one of them feeds the other.
  const TRIANGLE := Compiled(
    "entry", map["entry" := ["middle", "end"], "middle" := ["end"]],
    map["middle" := ["entry"], "end" := ["entry", "middle"]], {}, {"middle", "end"}, {"end"}, 100, 1)
  const ONLY := CorrelationKey("run", 1)
  const MID := JoinKey("middle", ONLY)
  const END := JoinKey("end", ONLY)
  const DEFAULT := Dispatch([], false, false, All)

  const FIRST := Activation(1, "entry", "", None, 0, ONLY)
  const EARLY := Activation(2, "end", "early", None, 0, ONLY)
  const BETWEEN := Activation(3, "middle", "between", None, 0, ONLY)

  // What a join holds that only the entry has sent to, and one that only the middle has.
  const SENT := JoinBucket(map["entry" := ["sent"]], map["entry" := map[1 := 1]])
  const LATE := JoinBucket(map["middle" := ["late"]], map["middle" := map[3 := 1]])

  function Through(item: Activation, output: string): Operation {
    CommitStandalone(Ran(item, NodeResult(output, false), None, None, 0), DEFAULT)
  }

  // ----- routing over the triangle -----

  lemma EntryRoutes(state: RunState)
    requires state.buckets == map[]
    ensures Route(TRIANGLE, state, FIRST, "sent", DEFAULT)
         == Ok(state.(routed := state.routed + [1], buckets := map[MID := SENT, END := SENT]))
  {
    var started := state.(routed := state.routed + [1]);
    var mid, end := Delivery("middle", None, false, false), Delivery("end", None, false, false);
    var deliveries := [mid, end];
    assert [] + DefaultDeliveries(["middle", "end"]) == deliveries;
    assert deliveries[1..] == [end] && deliveries[..1] == [mid] && [end][1..] == [] && [mid][..0] == [];
    assert Materialized(TRIANGLE, [end]) == 0 && Iterated([end]) == 0;
    assert Materialized(TRIANGLE, deliveries) == 0 && Iterated(deliveries) == 0;
    assert PrepareSourceSet(TRIANGLE, started, DEFAULT.(deliveries := deliveries)) == Ok((started, None));
    EntryDelivers(started, deliveries);
    EntrySelects(deliveries);
    hide ScheduleDeliveries, PrepareSourceSet, Selected;
    EntryCloses(started);
  }

  lemma EntrySelects(deliveries: seq<Delivery>)
    requires deliveries == [Delivery("middle", None, false, false), Delivery("end", None, false, false)]
    ensures Selected(TRIANGLE, deliveries) == map["middle" := 1, "end" := 1]
  {
    assert deliveries[..1] == [deliveries[0]] && deliveries[..1][..0] == [];
    assert Selected(TRIANGLE, deliveries[..1]) == map["middle" := 1];
  }

  // Before they are told how much to expect.
  function Delivered(state: RunState): RunState {
    state.(buckets := map[MID := SENT.(expectations := map[]), END := SENT.(expectations := map[])])
  }

  lemma EntryDelivers(state: RunState, deliveries: seq<Delivery>)
    requires deliveries == [Delivery("middle", None, false, false), Delivery("end", None, false, false)]
    requires state.buckets == map[]
    ensures ScheduleDeliveries(TRIANGLE, state, FIRST, "sent", deliveries, None, 0, 0) == Ok(Delivered(state))
  {
    var next := AddContribution(state, "entry", MID, "sent");
    assert Contributed(JoinBucket(map[], map[]), "entry") + ["sent"] == ["sent"];
    assert next.buckets == map[MID := JoinBucket(map["entry" := ["sent"]], map[])];
    assert AddContribution(next, "entry", END, "sent").buckets == Delivered(state).buckets;
    assert ScheduleDelivery(TRIANGLE, state, FIRST, "sent", deliveries[0], None, 0, 0) == Ok(next);
    assert ScheduleDelivery(TRIANGLE, next, FIRST, "sent", deliveries[1], None, 0, 1) == Ok(Delivered(state));
    hide ScheduleDelivery, AddContribution, Delivered;
    assert ScheduleDeliveries(TRIANGLE, Delivered(state), FIRST, "sent", deliveries, None, 0, 2)
        == Ok(Delivered(state));
    assert ScheduleDeliveries(TRIANGLE, next, FIRST, "sent", deliveries, None, 0, 1) == Ok(Delivered(state));
  }

  lemma EntryCloses(state: RunState)
    requires state.buckets == map[]
    ensures CloseJoinExpectations(TRIANGLE, Delivered(state), FIRST, map["middle" := 1, "end" := 1])
         == Ok(state.(buckets := map[MID := SENT, END := SENT]))
  {
    var sent, selected := Delivered(state), map["middle" := 1, "end" := 1];
    assert Close(SENT.(expectations := map[]), FIRST, 1) == Ok(SENT);
    var once := sent.(buckets := sent.buckets[MID := SENT]);
    var twice := once.(buckets := once.buckets[END := SENT]);
    assert twice.buckets == map[MID := SENT, END := SENT];
    assert CloseAll(TRIANGLE, twice, FIRST, [], selected) == Ok(twice);
    assert ["middle", "end"][1..] == ["end"] && ["end"][1..] == [];
    assert CloseAll(TRIANGLE, once, FIRST, ["end"], selected) == Ok(twice);
  }

  lemma MiddleRoutes(state: RunState)
    requires state.buckets == map[]
    ensures Route(TRIANGLE, state, BETWEEN, "late", DEFAULT)
         == Ok(state.(routed := state.routed + [3], buckets := map[END := LATE]))
  {
    var started := state.(routed := state.routed + [3]);
    var deliveries := [Delivery("end", None, false, false)];
    assert [] + DefaultDeliveries(["end"]) == deliveries && deliveries[1..] == [] && deliveries[..0] == [];
    assert Materialized(TRIANGLE, deliveries) == 0 && Iterated(deliveries) == 0;
    assert PrepareSourceSet(TRIANGLE, started, DEFAULT.(deliveries := deliveries)) == Ok((started, None));
    var sent := AddContribution(started, "middle", END, "late");
    assert Contributed(JoinBucket(map[], map[]), "middle") + ["late"] == ["late"];
    assert sent.buckets == map[END := LATE.(expectations := map[])];
    assert ScheduleDelivery(TRIANGLE, started, BETWEEN, "late", deliveries[0], None, 0, 0) == Ok(sent);
    assert ScheduleDeliveries(TRIANGLE, sent, BETWEEN, "late", deliveries, None, 0, 1) == Ok(sent);
    assert Selected(TRIANGLE, deliveries) == map["end" := 1];
    hide ScheduleDeliveries, PrepareSourceSet, Selected, ScheduleDelivery, AddContribution;
    assert Close(LATE.(expectations := map[]), BETWEEN, 1) == Ok(LATE);
    assert sent.buckets[END := LATE] == map[END := LATE];
    assert ["end"][1..] == [];
  }

  lemma EndRoutes(state: RunState, output: string)
    ensures Route(TRIANGLE, state, EARLY, output, DEFAULT) == Ok(state.(routed := state.routed + [2]))
  {
    assert [] + DefaultDeliveries([]) == [];
  }

  // ----- the run -----

  predicate Waiting(state: RunState, item: Activation) {
    && item.sourceSet.None? && state.queue != [] && state.queue[0] == item && item.id in state.activations
    && state.activations[item.id].activation == item && state.activations[item.id].phase == Ready
  }

  predicate Alone(state: RunState, id: nat) {
    id in state.activations && state.activations[id].activation.sourceSet.None?
  }

  /** The first item has been run, routed and is over. */
  predicate Passed(before: RunState, after: RunState, item: Activation) {
    && before.queue != [] && after.queue == before.queue[1..] && after.joined == before.joined
    && after.correlations == before.correlations && after.nextActSeq == before.nextActSeq
    && after.activations.Keys == before.activations.Keys && Over(after, item.id)
    && Alone(after, item.id)
    && (forall id :: id in before.activations && id != item.id ==> after.activations[id] == before.activations[id])
  }

  /** What the item sends leaves these buckets. */
  ghost predicate Leaves(item: Activation, output: string, before: map<JoinKey, JoinBucket>,
                         after: map<JoinKey, JoinBucket>) {
    forall state: RunState :: state.buckets == before ==>
      Route(TRIANGLE, state, item, output, DEFAULT)
        == Ok(state.(routed := state.routed + [item.id], buckets := after))
  }

  lemma Finishes(state: RunState, item: Activation, output: string)
    requires Waiting(state, item)
    ensures StartActivation(state, item.id).Ok?
    ensures var started, ran := StartActivation(state, item.id).value, Through(item, output).ran;
            && Committable(started, ran) && Finish(started, ran).Ok?
            && Passed(state, Finish(started, ran).value, item)
            && Finish(started, ran).value.buckets == state.buckets
  {
  }

  lemma Passes(state: RunState, item: Activation, output: string, buckets: map<JoinKey, JoinBucket>)
    requires Waiting(state, item) && Leaves(item, output, state.buckets, buckets)
    ensures StartActivation(state, item.id).Ok?
    ensures var started, ran := StartActivation(state, item.id).value, Through(item, output).ran;
            && Committable(started, ran) && CommitActivation(TRIANGLE, started, ran, DEFAULT).Ok?
            && var after := CommitActivation(TRIANGLE, started, ran, DEFAULT).value;
               Passed(state, after, item) && after.buckets == buckets
  {
    hide Route, StartActivation, Finish, Waiting, Committable;
    Finishes(state, item, output);
    var finished := Finish(StartActivation(state, item.id).value, Through(item, output).ran).value;
    assert Route(TRIANGLE, finished, item, output, DEFAULT)
        == Ok(finished.(routed := finished.routed + [item.id], buckets := buckets));
  }

  lemma PassesOn(states: seq<RunState>, turns: seq<Turn>, item: Activation, output: string,
                 buckets: map<JoinKey, JoinBucket>) returns (more: seq<RunState>, further: seq<Turn>)
    requires Reached(TRIANGLE, states, turns) && |states| == |turns| + 1 && Waiting(states[|turns|], item)
    requires Leaves(item, output, states[|turns|].buckets, buckets)
    ensures Reached(TRIANGLE, more, further) && |more| == |further| + 1
    ensures Passed(states[|turns|], more[|further|], item) && more[|further|].buckets == buckets
  {
    hide Reached, Conserved, Waiting, Route, Wired, Passed, Makes, Leaves, StartActivation, CommitActivation,
      Committable;
    var state, ran := states[|turns|], Through(item, output).ran;
    WaitingIsAlone(state, item);
    Passes(state, item, output, buckets);
    var started := StartActivation(state, item.id).value;
    var after := CommitActivation(TRIANGLE, started, ran, DEFAULT).value;
    SoFarSound(states, turns);
    StartMakes(TRIANGLE, state, item.id);
    more, further := Extended(states, turns, StartOne(item.id), started);
    SoFarSound(more, further);
    StandaloneMakes(TRIANGLE, started, ran, DEFAULT);
    more, further := Extended(more, further, Through(item, output), after);
  }

  lemma WaitingIsAlone(state: RunState, item: Activation)
    requires Waiting(state, item)
    ensures item.sourceSet.None?
  {
  }

  lemma SoFarSound(states: seq<RunState>, turns: seq<Turn>)
    requires Reached(TRIANGLE, states, turns) && |states| == |turns| + 1
    ensures Conserved(TRIANGLE, states[|turns|])
  {
    hide Reached, Conserved;
    EveryStateIsConserved(TRIANGLE, states, turns, |turns|);
  }

  lemma Extended(states: seq<RunState>, turns: seq<Turn>, operation: Operation, after: RunState)
    returns (more: seq<RunState>, further: seq<Turn>)
    requires Reached(TRIANGLE, states, turns) && |states| == |turns| + 1
    requires Makes(TRIANGLE, states[|turns|], operation, after)
    ensures Reached(TRIANGLE, more, further) && |more| == |further| + 1 && more[|further|] == after
  {
    hide Reached, Conserved, Perform, Enabled;
    NextTurn(TRIANGLE, states, turns, operation);
    more, further := states + [after], turns + [Does(operation)];
  }

  /** It happens: the entry has sent, the last node fires at once, and what the one between
      sends it afterwards is left when everything is over. */
  lemma LateContributionIsLost() returns (states: seq<RunState>, turns: seq<Turn>)
    ensures Reached(TRIANGLE, states, turns) && |states| == |turns| + 1
    ensures var state := states[|turns|];
            && EverythingIsOver(state) && END in state.buckets && HasContribution(state.buckets[END])
            && Fired(state.joined, END) && !Complete(TRIANGLE, state, END)
  {
    hide *;
    states, turns := [Initial(TRIANGLE, "run", "")], [];
    Starts();
    EntryLeaves();
    states, turns := PassesOn(states, turns, FIRST, "sent", map[MID := SENT, END := SENT]);
    ghost var sent := states[|turns|];
    SentByEntry(sent);
    OrderDecides(sent);
    states, turns := FiresOn(states, turns, END, "early");
    states, turns := FiresOn(states, turns, MID, "between");
    ghost var fired := states[|turns|];
    BothFired(sent);
    LateLeaves();
    states, turns := PassesOn(states, turns, EARLY, "end", map[]);
    NextWaits(fired, states[|turns|]);
    ghost var early := states[|turns|];
    states, turns := PassesOn(states, turns, BETWEEN, "late", map[END := LATE]);
    LateIsLeft(fired, early, states[|turns|]);
    SoFarSound(states, turns);
    ReadyIffComplete(TRIANGLE, states[|turns|], END);
  }

  lemma SentByEntry(state: RunState)
    requires Passed(Initial(TRIANGLE, "run", ""), state, FIRST)
    ensures state.correlations == map[ONLY := map["entry" := 1]] && state.nextActSeq == 2 && state.queue == []
    ensures state.activations.Keys == {1} && Over(state, 1) && Alone(state, 1) && state.joined == []
  {
  }

  lemma BothFired(state: RunState)
    requires state.correlations == map[ONLY := map["entry" := 1]] && state.nextActSeq == 2 && state.queue == []
    requires state.activations.Keys == {1} && Over(state, 1) && Alone(state, 1) && state.joined == []
    requires state.buckets == map[MID := SENT, END := SENT]
    ensures var fired := MaterializeJoin(MaterializeJoin(state, END, "early"), MID, "between");
            && Waiting(fired, EARLY) && fired.queue == [EARLY, BETWEEN] && fired.buckets == map[]
            && fired.activations.Keys == {1, 2, 3} && Over(fired, 1) && Alone(fired, 1)
            && fired.activations[3] == Tracked(BETWEEN)
            && fired.joined == [Joining(END, 2), Joining(MID, 3)] && At2(fired.correlations, ONLY, "entry") == 1
  {
  }

  lemma NextWaits(fired: RunState, state: RunState)
    requires Passed(fired, state, EARLY) && fired.queue == [EARLY, BETWEEN]
    requires 3 in fired.activations && fired.activations[3] == Tracked(BETWEEN)
    ensures Waiting(state, BETWEEN)
  {
  }

  lemma LateIsLeft(fired: RunState, early: RunState, state: RunState)
    requires Passed(fired, early, EARLY) && Passed(early, state, BETWEEN)
    requires fired.activations.Keys == {1, 2, 3} && Over(fired, 1) && Alone(fired, 1)
    requires fired.joined == [Joining(END, 2), Joining(MID, 3)] && At2(fired.correlations, ONLY, "entry") == 1
    requires state.buckets == map[END := LATE]
    ensures EverythingIsOver(state) && Fired(state.joined, END) && HasContribution(state.buckets[END])
    ensures !JoinReady(TRIANGLE, state, END)
  {
    assert Contributed(LATE, "middle") == ["late"];
    assert state.joined[0].key == END;
    assert "entry" in Targets(TRIANGLE.predecessors, "end");
    assert PendingJoinActivations(TRIANGLE, state, END, "entry") == 1;
    assert !SourceReady(LATE, "entry", 1);
    hide Over;
    assert fired.activations[1] == early.activations[1] == state.activations[1];
    assert early.activations[2] == state.activations[2];
    StaysOver(fired, state, 1);
    StaysOver(early, state, 2);
  }

  lemma StaysOver(before: RunState, after: RunState, id: nat)
    requires Over(before, id) && Alone(before, id)
    requires id in after.activations && after.activations[id] == before.activations[id]
    ensures Over(after, id)
  {
  }

  lemma LateLeaves()
    ensures Leaves(EARLY, "end", map[], map[]) && Leaves(BETWEEN, "late", map[], map[END := LATE])
  {
    hide Route;
    forall state: RunState | state.buckets == map[]
      ensures Route(TRIANGLE, state, EARLY, "end", DEFAULT)
           == Ok(state.(routed := state.routed + [2], buckets := map[]))
      ensures Route(TRIANGLE, state, BETWEEN, "late", DEFAULT)
           == Ok(state.(routed := state.routed + [3], buckets := map[END := LATE]))
    {
      EndRoutes(state, "end");
      MiddleRoutes(state);
    }
  }

  lemma FiresOn(states: seq<RunState>, turns: seq<Turn>, key: JoinKey, input: string)
    returns (more: seq<RunState>, further: seq<Turn>)
    requires Reached(TRIANGLE, states, turns) && |states| == |turns| + 1 && JoinReady(TRIANGLE, states[|turns|], key)
    ensures Reached(TRIANGLE, more, further) && |more| == |further| + 1
    ensures more[|further|] == MaterializeJoin(states[|turns|], key, input)
  {
    hide Reached, Conserved, JoinReady, MaterializeJoin, Makes;
    SoFarSound(states, turns);
    FiringMakes(TRIANGLE, states[|turns|], key, input);
    more, further := Extended(states, turns, FireJoin(key, input), MaterializeJoin(states[|turns|], key, input));
  }

  lemma EndIsReady(state: RunState)
    requires END in state.buckets && state.buckets[END] == SENT
    requires At2(state.correlations, ONLY, "entry") == 1 && At2(state.correlations, ONLY, "middle") == 0
    ensures JoinReady(TRIANGLE, state, END)
  {
    SentCounts();
    assert Targets(TRIANGLE.predecessors, "end") == ["entry", "middle"];
    assert PendingJoinActivations(TRIANGLE, state, END, "entry") == 1;
    assert PendingJoinActivations(TRIANGLE, state, END, "middle") == 0;
    hide SourceReady, PendingJoinActivations;
  }

  lemma MiddleIsReady(state: RunState)
    requires MID in state.buckets && state.buckets[MID] == SENT && At2(state.correlations, ONLY, "entry") == 1
    ensures JoinReady(TRIANGLE, state, MID)
  {
    SentCounts();
    assert Targets(TRIANGLE.predecessors, "middle") == ["entry"];
    assert PendingJoinActivations(TRIANGLE, state, MID, "entry") == 1;
    hide SourceReady, PendingJoinActivations;
  }

  lemma EndWaits(state: RunState)
    requires END in state.buckets && state.buckets[END] == SENT && At2(state.correlations, ONLY, "middle") == 1
    ensures !JoinReady(TRIANGLE, state, END)
  {
    assert "middle" in Targets(TRIANGLE.predecessors, "end");
    assert PendingJoinActivations(TRIANGLE, state, END, "middle") == 1;
    assert !SourceReady(state.buckets[END], "middle", 1);
  }

  /** Both joins are ready once the entry has sent; the last one is not any more if the one
      between fires first. */
  lemma OrderDecides(state: RunState)
    requires state.correlations == map[ONLY := map["entry" := 1]] && state.buckets == map[MID := SENT, END := SENT]
    ensures JoinReady(TRIANGLE, state, END) && JoinReady(TRIANGLE, MaterializeJoin(state, END, "early"), MID)
    ensures JoinReady(TRIANGLE, state, MID) && !JoinReady(TRIANGLE, MaterializeJoin(state, MID, "between"), END)
  {
    EndIsReady(state);
    MiddleIsReady(state);
    MiddleIsReady(MaterializeJoin(state, END, "early"));
    EndWaits(MaterializeJoin(state, MID, "between"));
  }

  lemma SentCounts()
    ensures SourceReady(SENT, "entry", 1) && SourceReady(SENT, "middle", 0)
  {
    var counts: map<nat, int> := map[1 := 1];
    assert counts - {1} == map[] && |counts| == 1;
    assert Sum(counts) == 1;
    assert Expected(SENT, "entry") == counts && Expected(SENT, "middle") == map[];
    assert Contributed(SENT, "entry") == ["sent"];
  }

  lemma Starts()
    ensures Reached(TRIANGLE, [Initial(TRIANGLE, "run", "")], []) && Waiting(Initial(TRIANGLE, "run", ""), FIRST)
    ensures Initial(TRIANGLE, "run", "").buckets == map[]
  {
  }

  lemma EntryLeaves()
    ensures Leaves(FIRST, "sent", map[], map[MID := SENT, END := SENT])
  {
    hide Route;
    forall state: RunState | state.buckets == map[]
      ensures Route(TRIANGLE, state, FIRST, "sent", DEFAULT)
           == Ok(state.(routed := state.routed + [1], buckets := map[MID := SENT, END := SENT]))
    {
      EntryRoutes(state);
    }
  }
}
