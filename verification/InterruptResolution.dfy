/** Exact resolution of guard interrupts on resume, and the check that a repeated
    resume replays the durable resolutions (workflow/workflow.go:2975-3074). */
module InterruptResolution {
  import opened Options
  import opened CheckpointStore

  // What a resume request supplies for one interrupt.
  datatype Resolution = Resolution(interruptID: string, payloadRef: string)

  datatype ResolutionError =
    | BadCheckpoint
    | IDRequired
    | Duplicate(id: string)
    | Unexpected(id: string)
    | PayloadRefRequired(id: string)
    | PayloadRefDiffers(id: string)
    | ResolutionRequired(id: string)

  ghost function PendingIDs(pending: seq<PendingInterrupt>): set<string> {
    set i | 0 <= i < |pending| :: pending[i].request.id
  }

  ghost function ResolvedIDs(resolved: seq<ResolvedInterrupt>): set<string> {
    set i | 0 <= i < |resolved| :: resolved[i].interruptID
  }

  ghost function ResolutionIDs(resolutions: seq<Resolution>): set<string> {
    set i | 0 <= i < |resolutions| :: resolutions[i].interruptID
  }

  ghost predicate DistinctPending(pending: seq<PendingInterrupt>) {
    && (forall i :: 0 <= i < |pending| ==> pending[i].request.id != "")
    && (forall i, j :: 0 <= i < j < |pending| ==> pending[i].request.id != pending[j].request.id)
  }

  lemma NothingPending()
    ensures DistinctPending([]) && PendingIDs([]) == {}
  {
  }

  /** A longer prefix is distinct exactly if its last wait has an identifier, and a new one. */
  lemma OneMorePending(waits: seq<PendingInterrupt>, index: nat)
    requires index < |waits|
    ensures PendingIDs(waits[..index + 1]) == PendingIDs(waits[..index]) + {waits[index].request.id}
    ensures DistinctPending(waits[..index + 1]) <==>
              DistinctPending(waits[..index]) && waits[index].request.id != ""
                && waits[index].request.id !in PendingIDs(waits[..index])
    ensures DistinctPending(waits) ==> DistinctPending(waits[..index + 1])
  {
    var shorter, longer := waits[..index], waits[..index + 1];
    assert longer == shorter + [waits[index]];
    assert forall i :: 0 <= i < index ==> longer[i] == shorter[i];
    assert longer[index] == waits[index];
  }

  ghost predicate DistinctResolutions(resolutions: seq<Resolution>) {
    && (forall i :: 0 <= i < |resolutions| ==> resolutions[i].interruptID != "" && resolutions[i].payloadRef != "")
    && (forall i, j :: 0 <= i < j < |resolutions| ==> resolutions[i].interruptID != resolutions[j].interruptID)
  }

  ghost predicate DistinctResolved(resolved: seq<ResolvedInterrupt>) {
    && (forall i :: 0 <= i < |resolved| ==> resolved[i].interruptID != "" && resolved[i].payloadRef != "")
    && (forall i, j :: 0 <= i < j < |resolved| ==> resolved[i].interruptID != resolved[j].interruptID)
  }

  /** Every pending interrupt is resolved exactly once and nothing else is. */
  ghost predicate Exact(pending: seq<PendingInterrupt>, resolutions: seq<Resolution>) {
    && pending != [] && DistinctPending(pending) && DistinctResolutions(resolutions)
    && PendingIDs(pending) == ResolutionIDs(resolutions)
  }

  /** The interrupt as resolved by a payload reference: its own facts, carried along. */
  function Resolved(interrupt: PendingInterrupt, payloadRef: string): ResolvedInterrupt {
    ResolvedInterrupt(
      interrupt.request.id, payloadRef, interrupt.guardName, interrupt.phase, interrupt.nodeName,
      interrupt.activationID, interrupt.childRunID, interrupt.childCheckpointID, interrupt.candidateOutput)
  }

  /** The answers in pending order, each with the reference given for its id. */
  ghost predicate Answers(pending: seq<PendingInterrupt>, resolutions: seq<Resolution>,
                          resolved: seq<ResolvedInterrupt>) {
    && |resolved| == |pending|
    && (forall i :: 0 <= i < |pending| ==>
          && resolved[i] == Resolved(pending[i], resolved[i].payloadRef)
          && Resolution(pending[i].request.id, resolved[i].payloadRef) in resolutions)
  }

  lemma NothingResolved(resolutions: seq<Resolution>)
    ensures DistinctResolutions([]) && ResolutionIDs([]) == {} && Answers([], resolutions, [])
  {
  }

  /** A longer prefix is distinct exactly if its last resolution is complete, and a new one. */
  lemma OneMoreResolution(resolutions: seq<Resolution>, index: nat)
    requires index < |resolutions|
    ensures ResolutionIDs(resolutions[..index + 1])
      == ResolutionIDs(resolutions[..index]) + {resolutions[index].interruptID}
    ensures ResolutionIDs(resolutions[..index + 1]) <= ResolutionIDs(resolutions)
    ensures DistinctResolutions(resolutions[..index + 1]) <==>
              DistinctResolutions(resolutions[..index]) && resolutions[index].interruptID != ""
                && resolutions[index].payloadRef != ""
                && resolutions[index].interruptID !in ResolutionIDs(resolutions[..index])
    ensures DistinctResolutions(resolutions) ==> DistinctResolutions(resolutions[..index + 1])
  {
    var shorter, longer := resolutions[..index], resolutions[..index + 1];
    assert longer == shorter + [resolutions[index]];
    assert forall i :: 0 <= i < index ==> longer[i] == shorter[i];
    assert longer[index] == resolutions[index];
  }

  lemma OneMoreAnswer(pending: seq<PendingInterrupt>, resolutions: seq<Resolution>, resolved: seq<ResolvedInterrupt>,
                      index: nat, payloadRef: string)
    requires index < |pending| && Answers(pending[..index], resolutions, resolved)
    requires Resolution(pending[index].request.id, payloadRef) in resolutions
    ensures Answers(pending[..index + 1], resolutions, resolved + [Resolved(pending[index], payloadRef)])
  {
  }

  method ResolvePendingInterrupts(pending: seq<PendingInterrupt>, resolutions: seq<Resolution>)
    returns (resolved: seq<ResolvedInterrupt>, error: Option<ResolutionError>)
    ensures error.None? <==> Exact(pending, resolutions)
    ensures error.None? ==> Answers(pending, resolutions, resolved)
    ensures error == Some(BadCheckpoint) <==> pending == [] || !DistinctPending(pending)
    ensures error.Some? && error.value.Unexpected? ==> error.value.id !in PendingIDs(pending)
    ensures error.Some? && error.value.ResolutionRequired? ==>
              error.value.id in PendingIDs(pending) && error.value.id !in ResolutionIDs(resolutions)
  {
    resolved := [];
    if |pending| == 0 {
      return resolved, Some(BadCheckpoint);
    }
    hide PendingIDs, DistinctPending, ResolutionIDs, DistinctResolutions, Answers;
    NothingPending();
    var pendingIDs: set<string> := {};
    for index := 0 to |pending|
      invariant pendingIDs == PendingIDs(pending[..index])
      invariant DistinctPending(pending[..index])
    {
      OneMorePending(pending, index);
      var interruptID := pending[index].request.id;
      if interruptID == "" || interruptID in pendingIDs {
        return resolved, Some(BadCheckpoint);
      }
      pendingIDs := pendingIDs + {interruptID};
    }
    assert pending[..|pending|] == pending;
    NothingResolved(resolutions);
    var byID: map<string, Resolution> := map[];
    for index := 0 to |resolutions|
      invariant byID.Keys == ResolutionIDs(resolutions[..index]) <= pendingIDs
      invariant DistinctResolutions(resolutions[..index])
      invariant forall id :: id in byID ==> byID[id] in resolutions[..index] && byID[id].interruptID == id
    {
      OneMoreResolution(resolutions, index);
      var resolution := resolutions[index];
      assert resolutions[..index + 1] == resolutions[..index] + [resolution];
      if resolution.interruptID == "" { return resolved, Some(IDRequired); }
      if resolution.interruptID in byID { return resolved, Some(Duplicate(resolution.interruptID)); }
      if resolution.interruptID !in pendingIDs { return resolved, Some(Unexpected(resolution.interruptID)); }
      if resolution.payloadRef == "" { return resolved, Some(PayloadRefRequired(resolution.interruptID)); }
      byID := byID[resolution.interruptID := resolution];
    }
    assert resolutions[..|resolutions|] == resolutions;
    for index := 0 to |pending|
      invariant PendingIDs(pending[..index]) <= byID.Keys
      invariant Answers(pending[..index], resolutions, resolved)
    {
      OneMorePending(pending, index);
      var interrupt := pending[index];
      if interrupt.request.id !in byID {
        return resolved, Some(ResolutionRequired(interrupt.request.id));
      }
      var resolution := byID[interrupt.request.id];
      assert resolution == Resolution(interrupt.request.id, resolution.payloadRef);
      OneMoreAnswer(pending, resolutions, resolved, index, resolution.payloadRef);
      resolved := resolved + [Resolved(interrupt, resolution.payloadRef)];
    }
    return resolved, None;
  }

  /** A replay says the same as what is durable: each id once, with the same reference. */
  ghost predicate SameAssociations(resolved: seq<ResolvedInterrupt>, replay: seq<Resolution>) {
    && DistinctResolutions(replay)
    && ResolvedIDs(resolved) == ResolutionIDs(replay)
    && (forall i :: 0 <= i < |resolved| ==> Resolution(resolved[i].interruptID, resolved[i].payloadRef) in replay)
  }

  ghost predicate ReplayAllowed(resolved: seq<ResolvedInterrupt>, replay: seq<Resolution>) {
    DistinctResolved(resolved) && (replay == [] || SameAssociations(resolved, replay))
  }

  /** The durable references by id. */
  ghost predicate IsIndex(durable: map<string, string>, resolved: seq<ResolvedInterrupt>) {
    && durable.Keys == ResolvedIDs(resolved)
    && (forall i :: 0 <= i < |resolved| ==> durable[resolved[i].interruptID] == resolved[i].payloadRef)
  }

  /** The same association, read off the index. */
  ghost predicate AgreesWithIndex(durable: map<string, string>, replay: seq<Resolution>) {
    && DistinctResolutions(replay)
    && ResolutionIDs(replay) <= durable.Keys
    && (forall i :: 0 <= i < |replay| ==> durable[replay[i].interruptID] == replay[i].payloadRef)
  }

  lemma IndexDecides(durable: map<string, string>, resolved: seq<ResolvedInterrupt>, replay: seq<Resolution>)
    requires IsIndex(durable, resolved)
    ensures SameAssociations(resolved, replay)
         <==> (AgreesWithIndex(durable, replay) && ResolutionIDs(replay) == durable.Keys)
  {
    if SameAssociations(resolved, replay) {
      forall j | 0 <= j < |replay|
        ensures durable[replay[j].interruptID] == replay[j].payloadRef
      {
        assert replay[j].interruptID in ResolutionIDs(replay);
        var i :| 0 <= i < |resolved| && resolved[i].interruptID == replay[j].interruptID;
        var k :| 0 <= k < |replay| && replay[k] == Resolution(resolved[i].interruptID, resolved[i].payloadRef);
        assert j == k;
      }
    }
    if AgreesWithIndex(durable, replay) && ResolutionIDs(replay) == durable.Keys {
      forall i | 0 <= i < |resolved|
        ensures Resolution(resolved[i].interruptID, resolved[i].payloadRef) in replay
      {
        assert resolved[i].interruptID in ResolutionIDs(replay);
        var j :| 0 <= j < |replay| && replay[j].interruptID == resolved[i].interruptID;
        assert replay[j] == Resolution(resolved[i].interruptID, resolved[i].payloadRef);
      }
    }
  }

  lemma IndexExtends(durable: map<string, string>, resolved: seq<ResolvedInterrupt>, index: nat)
    requires index < |resolved|
    requires IsIndex(durable, resolved[..index]) && DistinctResolved(resolved[..index])
    ensures DistinctResolved(resolved[..index + 1])
         <==> (resolved[index].interruptID != "" && resolved[index].payloadRef != ""
           && resolved[index].interruptID !in durable)
    ensures resolved[index].interruptID !in durable ==>
              IsIndex(durable[resolved[index].interruptID := resolved[index].payloadRef], resolved[..index + 1])
    ensures DistinctResolved(resolved) ==> DistinctResolved(resolved[..index + 1])
  {
    assert resolved[..index + 1] == resolved[..index] + [resolved[index]];
    if resolved[index].interruptID in durable {
      var i :| 0 <= i < index && resolved[..index][i].interruptID == resolved[index].interruptID;
      assert resolved[..index + 1][i].interruptID == resolved[..index + 1][index].interruptID;
    }
  }

  lemma AgreementExtends(durable: map<string, string>, replay: seq<Resolution>, index: nat)
    requires index < |replay| && AgreesWithIndex(durable, replay[..index])
    ensures ResolutionIDs(replay[..index + 1]) == ResolutionIDs(replay[..index]) + {replay[index].interruptID}
    ensures AgreesWithIndex(durable, replay[..index + 1])
         <==> (&& replay[index].interruptID != "" && replay[index].payloadRef != ""
               && replay[index].interruptID !in ResolutionIDs(replay[..index])
               && replay[index].interruptID in durable
               && durable[replay[index].interruptID] == replay[index].payloadRef)
    ensures AgreesWithIndex(durable, replay) ==> AgreesWithIndex(durable, replay[..index + 1])
  {
    assert replay[..index + 1] == replay[..index] + [replay[index]];
    if replay[index].interruptID in ResolutionIDs(replay[..index]) {
      var i :| 0 <= i < index && replay[..index][i].interruptID == replay[index].interruptID;
      assert replay[..index + 1][i].interruptID == replay[..index + 1][index].interruptID;
    }
    assert replay[..index + 1][index].interruptID in ResolutionIDs(replay[..index + 1]);
    if AgreesWithIndex(durable, replay) {
      forall id | id in ResolutionIDs(replay[..index + 1])
        ensures id in durable
      {
        var i :| 0 <= i <= index && replay[..index + 1][i].interruptID == id;
        assert replay[i].interruptID in ResolutionIDs(replay);
      }
    }
  }

  method ValidateResolvedInterruptReplay(resolved: seq<ResolvedInterrupt>, replay: seq<Resolution>)
    returns (error: Option<ResolutionError>)
    ensures error.None? <==> ReplayAllowed(resolved, replay)
    ensures error == Some(BadCheckpoint) <==> !DistinctResolved(resolved)
  {
    var durable: map<string, string> := map[];
    for index := 0 to |resolved|
      invariant IsIndex(durable, resolved[..index]) && DistinctResolved(resolved[..index])
    {
      var resolution := resolved[index];
      IndexExtends(durable, resolved, index);
      if resolution.interruptID == "" || resolution.payloadRef == "" || resolution.interruptID in durable {
        return Some(BadCheckpoint);
      }
      durable := durable[resolution.interruptID := resolution.payloadRef];
    }
    assert resolved[..|resolved|] == resolved;
    if |replay| == 0 {
      return None;
    }
    IndexDecides(durable, resolved, replay);
    error := CompareReplay(durable, resolved, replay);
  }

  /** The second half of the validation: the replay against the index. */
  method CompareReplay(durable: map<string, string>, resolved: seq<ResolvedInterrupt>, replay: seq<Resolution>)
    returns (error: Option<ResolutionError>)
    requires IsIndex(durable, resolved)
    ensures error.None? <==> AgreesWithIndex(durable, replay) && ResolutionIDs(replay) == durable.Keys
    ensures error != Some(BadCheckpoint)
  {
    var replayed: set<string> := {};
    for index := 0 to |replay|
      invariant replayed == ResolutionIDs(replay[..index])
      invariant AgreesWithIndex(durable, replay[..index])
    {
      var resolution := replay[index];
      AgreementExtends(durable, replay, index);
      if resolution.interruptID == "" { return Some(IDRequired); }
      if resolution.interruptID in replayed { return Some(Duplicate(resolution.interruptID)); }
      if resolution.interruptID !in durable { return Some(Unexpected(resolution.interruptID)); }
      if resolution.payloadRef == "" { return Some(PayloadRefRequired(resolution.interruptID)); }
      if resolution.payloadRef != durable[resolution.interruptID] {
        return Some(PayloadRefDiffers(resolution.interruptID));
      }
      replayed := replayed + {resolution.interruptID};
    }
    assert replay[..|replay|] == replay;
    for index := 0 to |resolved|
      invariant forall i :: 0 <= i < index ==> resolved[i].interruptID in replayed
    {
      if resolved[index].interruptID !in replayed {
        assert resolved[index].interruptID in durable.Keys;
        return Some(ResolutionRequired(resolved[index].interruptID));
      }
    }
    return None;
  }

  // ----- laws -----

  /** The answers do not depend on the order in which resolutions are supplied. */
  lemma AnswersAreUnique(pending: seq<PendingInterrupt>, left: seq<Resolution>, right: seq<Resolution>,
                         fromLeft: seq<ResolvedInterrupt>, fromRight: seq<ResolvedInterrupt>)
    requires Exact(pending, left) && Exact(pending, right)
    requires forall resolution :: resolution in left <==> resolution in right
    requires Answers(pending, left, fromLeft) && Answers(pending, right, fromRight)
    ensures fromLeft == fromRight
  {
    forall i | 0 <= i < |pending|
      ensures fromLeft[i].payloadRef == fromRight[i].payloadRef
    {
      var id := pending[i].request.id;
      var first := Resolution(id, fromLeft[i].payloadRef);
      var second := Resolution(id, fromRight[i].payloadRef);
      assert first in left && second in left;
      var m :| 0 <= m < |left| && left[m] == first;
      var n :| 0 <= n < |left| && left[n] == second;
      assert m == n;
    }
  }

  /** What a resume resolved may be replayed by later resumes, in full or not at all,
      and a replay with any other association is refused. */
  lemma ResolvedMayBeReplayed(pending: seq<PendingInterrupt>, resolutions: seq<Resolution>,
                              resolved: seq<ResolvedInterrupt>, replay: seq<Resolution>)
    requires Exact(pending, resolutions) && Answers(pending, resolutions, resolved)
    ensures ReplayAllowed(resolved, replay)
         <==> (replay == []
               || (DistinctResolutions(replay) && forall resolution :: resolution in replay <==>
                 resolution in resolutions))
  {
    SameIDs(pending, resolved);
    AssociationsAre(pending, resolutions, resolved);
    if replay != [] && SameAssociations(resolved, replay) {
      forall resolution ensures resolution in replay <==> resolution in resolutions {
        if resolution in replay {
          var j :| 0 <= j < |replay| && replay[j] == resolution;
          assert resolution.interruptID in ResolutionIDs(replay);
          var i :| 0 <= i < |resolved| && resolved[i].interruptID == resolution.interruptID;
          var k :| 0 <= k < |replay| && replay[k] == Resolution(resolved[i].interruptID, resolved[i].payloadRef);
          assert j == k;
        }
      }
    }
    if DistinctResolutions(replay) && (forall resolution :: resolution in replay <==> resolution in resolutions) {
      assert ResolutionIDs(replay) == ResolutionIDs(resolutions) by {
        forall id ensures id in ResolutionIDs(replay) <==> id in ResolutionIDs(resolutions) {
          if id in ResolutionIDs(replay) {
            var i :| 0 <= i < |replay| && replay[i].interruptID == id;
            assert replay[i] in resolutions;
          }
          if id in ResolutionIDs(resolutions) {
            var i :| 0 <= i < |resolutions| && resolutions[i].interruptID == id;
            assert resolutions[i] in replay;
          }
        }
      }
    }
  }

  lemma SameIDs(pending: seq<PendingInterrupt>, resolved: seq<ResolvedInterrupt>)
    requires |resolved| == |pending|
    requires forall i :: 0 <= i < |pending| ==> resolved[i] == Resolved(pending[i], resolved[i].payloadRef)
    ensures ResolvedIDs(resolved) == PendingIDs(pending)
  {
    forall id ensures id in ResolvedIDs(resolved) <==> id in PendingIDs(pending) {
      if id in PendingIDs(pending) {
        var i :| 0 <= i < |pending| && pending[i].request.id == id;
        assert resolved[i].interruptID == id;
      }
    }
  }

  /** The supplied resolutions are exactly the durable (id, reference) pairs. */
  lemma AssociationsAre(pending: seq<PendingInterrupt>, resolutions: seq<Resolution>, resolved: seq<ResolvedInterrupt>)
    requires Exact(pending, resolutions) && Answers(pending, resolutions, resolved)
    ensures DistinctResolved(resolved)
    ensures forall resolution :: resolution in resolutions ==>
              exists i :: 0 <= i < |resolved|
                && Resolution(resolved[i].interruptID, resolved[i].payloadRef) == resolution
  {
    forall i | 0 <= i < |resolved|
      ensures resolved[i].payloadRef != ""
    {
      assert Resolution(pending[i].request.id, resolved[i].payloadRef) in resolutions;
    }
    forall resolution | resolution in resolutions
      ensures exists i ::
        0 <= i < |resolved| && Resolution(resolved[i].interruptID, resolved[i].payloadRef) == resolution
    {
      var j :| 0 <= j < |resolutions| && resolutions[j] == resolution;
      assert resolution.interruptID in PendingIDs(pending);
      var i :| 0 <= i < |pending| && pending[i].request.id == resolution.interruptID;
      var k :| 0 <= k < |resolutions| && resolutions[k] == Resolution(pending[i].request.id, resolved[i].payloadRef);
      assert j == k;
    }
  }
}
