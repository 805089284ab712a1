/** The cross-runtime execution log: runtime events, their durable records, and
    the in-memory append-only log (runlog/runlog.go). */
module Runlog {
  import opened Options

  // Clock readings in nanoseconds; 0 is Go's zero time.
  type Time = nat

  // The runtime's own event types; anything a node or plugin defines is Custom.
  datatype EventType =
    | Untyped
    | WorkflowStarted
    | WorkflowRetryStarted
    | WorkflowJumpStarted
    | WorkflowResumed
    | CheckpointLoaded
    | WorkflowEnded(outcome: Outcome)
    | GuardInterrupted
    | WorkflowInterrupted
    | Custom(name: string)

  datatype Outcome = Completed | Failed | Canceled | Terminated

  datatype RevisionID = NoRevision | Revision(runID: string, sequence: int)

  datatype EventPayload = NoPayload | InterruptBody(request: InterruptRequest) | Bytes(value: string)

  datatype InterruptRequest = InterruptRequest(id: string, subject: string, resolutionSchemaRef: string)

  datatype Event = Event(
    definitionID: string,
    definitionVersion: string,
    sessionID: string,
    runID: string,
    nodeID: string,
    activationID: string,
    attemptID: string,
    revisionID: RevisionID,
    parentRunID: string,
    nodeExecutionVersion: int,
    executionEpoch: int,
    sourceRevisionID: string,
    sequence: int,
    eventType: EventType,
    source: string,
    origin: string,
    timestamp: Time,
    summary: string,
    payload: EventPayload,
    payloadRef: string)

  datatype Record = Record(
    definitionID: string,
    definitionVersion: string,
    sessionID: string,
    runID: string,
    nodeID: string,
    activationID: string,
    attemptID: string,
    revisionID: RevisionID,
    parentRunID: string,
    sourceRunID: string,
    sourceEventSeq: int,
    sequence: int,
    nodeExecutionVersion: int,
    executionEpoch: int,
    sourceRevisionID: string,
    eventType: EventType,
    source: string,
    origin: string,
    summary: string,
    payload: EventPayload,
    payloadRef: string,
    timestamp: Time)

  datatype Fence = Fence(ownerID: string, claimSequence: int)

  datatype Query = Query(sessionID: string, runID: string, after: int, limit: int)

  datatype AppendError = InvalidRecord | Conflict

  datatype Appending = Appending(records: seq<Record>, error: Option<AppendError>)

  // ----- projections between events and records -----

  function RecordFromEvent(event: Event): Record {
    Record(
      event.definitionID, event.definitionVersion, event.sessionID, event.runID, event.nodeID,
      event.activationID, event.attemptID, event.revisionID, event.parentRunID, "", 0,
      event.sequence, event.nodeExecutionVersion, event.executionEpoch, event.sourceRevisionID,
      event.eventType, event.source, event.origin, event.summary, event.payload, event.payloadRef,
      event.timestamp)
  }

  function EventFromRecord(record: Record): Event {
    Event(
      record.definitionID, record.definitionVersion, record.sessionID, record.runID, record.nodeID,
      record.activationID, record.attemptID, record.revisionID, record.parentRunID,
      record.nodeExecutionVersion, record.executionEpoch, record.sourceRevisionID, record.sequence,
      record.eventType, record.source, record.origin, record.timestamp, record.summary,
      record.payload, record.payloadRef)
  }

  /** The durable form of an event, associated with the run it was forked from. */
  function AssociatedRecord(event: Event, sourceRunID: string, sourceEventSeq: int): Record {
    RecordFromEvent(event).(sourceRunID := sourceRunID, sourceEventSeq := sourceEventSeq)
  }

  // ----- appending -----

  predicate ValidRecord(record: Record) {
    && record.sessionID != ""
    && record.runID != ""
    && record.sequence > 0
    && record.eventType != Untyped
    && record.source != ""
    && record.timestamp != 0
    && ((record.sourceRunID == "") <==> (record.sourceEventSeq == 0))
    && record.sourceEventSeq >= 0
    && (record.sourceRunID == "" ==> record.sourceRevisionID == "")
  }

  datatype Key = Key(runID: string, sequence: int)

  function KeyOf(record: Record): Key {
    Key(record.runID, record.sequence)
  }

  ghost predicate UniqueKeys(records: seq<Record>) {
    forall i, j :: 0 <= i < j < |records| ==> KeyOf(records[i]) != KeyOf(records[j])
  }

  /** The record stored under a key, if any. */
  function Lookup(records: seq<Record>, key: Key): (found: Option<Record>)
    ensures found.Some? ==> found.value in records && KeyOf(found.value) == key
    ensures found.None? ==> forall record :: record in records ==> KeyOf(record) != key
  {
    if records == [] then None
    else if KeyOf(records[0]) == key then Some(records[0])
    else Lookup(records[1..], key)
  }

  /** Appending is idempotent by run and sequence and never rewrites a record. */
  function Appended(records: seq<Record>, record: Record): Appending {
    if !ValidRecord(record) then Appending(records, Some(InvalidRecord))
    else match Lookup(records, KeyOf(record))
      case Some(existing) => Appending(records, if existing == record then None else Some(Conflict))
      case None => Appending(records + [record], None)
  }

  // ----- one run's view of the log -----

  /** The records of one run, in append order. */
  function RunRecords(records: seq<Record>, runID: string): (mine: seq<Record>)
    ensures forall record :: record in mine <==> record in records && record.runID == runID
  {
    if records == [] then []
    else (if records[0].runID == runID then [records[0]] else []) + RunRecords(records[1..], runID)
  }

  lemma {:induction false} RunRecordsAppend(records: seq<Record>, record: Record, runID: string)
    ensures RunRecords(records + [record], runID)
         == RunRecords(records, runID) + (if record.runID == runID then [record] else [])
  {
    if records == [] {
      assert [record][1..] == [];
    } else {
      assert (records + [record])[1..] == records[1..] + [record];
      RunRecordsAppend(records[1..], record, runID);
    }
  }

  lemma {:induction false} LookupInRun(records: seq<Record>, key: Key)
    ensures Lookup(RunRecords(records, key.runID), key) == Lookup(records, key)
  {
    if records != [] {
      var rest := RunRecords(records[1..], key.runID);
      LookupInRun(records[1..], key);
      if records[0].runID == key.runID {
        assert RunRecords(records, key.runID) == [records[0]] + rest;
        assert ([records[0]] + rest)[1..] == rest;
      } else {
        assert RunRecords(records, key.runID) == rest;
      }
    }
  }

  /** Appending to the shared log is appending to the record's own run, with the
      same outcome, and leaves the journal of every other run alone. */
  lemma AppendIsPerRun(records: seq<Record>, record: Record, runID: string)
    ensures Appended(records, record).error == Appended(RunRecords(records, record.runID), record).error
    ensures RunRecords(Appended(records, record).records, runID)
         == if runID == record.runID then Appended(RunRecords(records, runID), record).records
            else RunRecords(records, runID)
  {
    LookupInRun(records, KeyOf(record));
    RunRecordsAppend(records, record, runID);
  }

  // ----- listing -----

  predicate Matches(record: Record, query: Query) {
    && (query.sessionID != "" ==> record.sessionID == query.sessionID)
    && (query.runID != "" ==> record.runID == query.runID)
    && record.sequence > query.after
  }

  predicate ValidQuery(query: Query) {
    && query.after >= 0
    && query.limit >= 0
    && !(query.sessionID != "" && query.runID == "" && query.after != 0)
  }

  function Matching(records: seq<Record>, query: Query): (matching: seq<Record>)
    ensures forall record :: record in matching <==> record in records && Matches(record, query)
  {
    if records == [] then []
    else (if Matches(records[0], query) then [records[0]] else []) + Matching(records[1..], query)
  }

  /** At most `limit` elements from the front; a limit of 0 means no limit. */
  function Page<T>(items: seq<T>, limit: int): seq<T> {
    if limit > 0 && |items| > limit then items[..limit] else items
  }

  lemma {:induction false} MatchingAppend(records: seq<Record>, record: Record, query: Query)
    ensures Matching(records + [record], query)
         == Matching(records, query) + (if Matches(record, query) then [record] else [])
  {
    if records == [] {
      assert [record][1..] == [];
    } else {
      assert (records + [record])[1..] == records[1..] + [record];
      MatchingAppend(records[1..], record, query);
    }
  }

  lemma {:induction false} MatchingGrows(records: seq<Record>, count: nat, query: Query)
    requires count <= |records|
    ensures Matching(records[..count], query) <= Matching(records, query)
    decreases |records| - count
  {
    if count < |records| {
      assert records[..count + 1] == records[..count] + [records[count]];
      MatchingAppend(records[..count], records[count], query);
      MatchingGrows(records, count + 1, query);
    } else {
      assert records[..count] == records;
    }
  }

  lemma {:induction false} NothingMatches(records: seq<Record>, query: Query)
    requires forall i :: 0 <= i < |records| ==> !Matches(records[i], query)
    ensures Matching(records, query) == []
  {
    if records != [] {
      NothingMatches(records[1..], query);
    }
  }

  /** A query of one run after a sequence, on a gap-free journal, is a suffix. */
  lemma {:induction false} MatchingSuffix(journal: seq<Record>, runID: string, after: int)
    requires runID != "" && 0 <= after <= |journal|
    requires forall i :: 0 <= i < |journal| ==> journal[i].runID == runID && journal[i].sequence == i + 1
    ensures Matching(journal, Query("", runID, after, 0)) == journal[after..]
  {
    if journal != [] {
      var query, last := Query("", runID, after, 0), |journal| - 1;
      assert journal == journal[..last] + [journal[last]];
      MatchingAppend(journal[..last], journal[last], query);
      hide Matching;
      if after <= last {
        MatchingSuffix(journal[..last], runID, after);
        assert journal[after..] == journal[..last][after..] + [journal[last]];
      } else {
        NothingMatches(journal, query);
      }
    }
  }

  /** A listing restricted to one run only depends on that run's records. */
  lemma {:induction false} MatchingPerRun(records: seq<Record>, query: Query)
    requires query.runID != ""
    ensures Matching(records, query) == Matching(RunRecords(records, query.runID), query)
  {
    if records != [] {
      var rest := RunRecords(records[1..], query.runID);
      MatchingPerRun(records[1..], query);
      if records[0].runID == query.runID {
        assert RunRecords(records, query.runID) == [records[0]] + rest;
        assert ([records[0]] + rest)[1..] == rest;
      } else {
        assert RunRecords(records, query.runID) == rest;
        assert !Matches(records[0], query);
      }
    }
  }

  lemma {:induction false} MatchingIgnoresLimit(records: seq<Record>, query: Query, limit: int)
    ensures Matching(records, query) == Matching(records, query.(limit := limit))
  {
    if records != [] {
      MatchingIgnoresLimit(records[1..], query, limit);
    }
  }

  /** Asking for later records finds no more of them, and fewer when one is passed. */
  lemma {:induction false} MatchingShrinks(records: seq<Record>, query: Query, after: int)
    requires query.after <= after
    ensures |Matching(records, query.(after := after))| <= |Matching(records, query)|
    ensures (exists record :: record in records && Matches(record, query) && record.sequence <= after) ==>
              |Matching(records, query.(after := after))| < |Matching(records, query)|
  {
    if records != [] {
      MatchingShrinks(records[1..], query, after);
    }
  }

  // ----- the in-memory log -----

  class MemoryLog {
    var records: seq<Record>
    var byKey: map<Key, Record>

    /** The index holds exactly the stored records, each under its own key. */
    ghost predicate Valid()
      reads this
    {
      && UniqueKeys(records)
      && (forall i :: 0 <= i < |records| ==> KeyOf(records[i]) in byKey && byKey[KeyOf(records[i])] == records[i])
      && (forall key :: key in byKey ==> byKey[key] in records && KeyOf(byKey[key]) == key)
    }

    constructor ()
      ensures Valid() && records == []
    {
      records, byKey := [], map[];
    }

    method Append(ctxDone: bool, record: Record) returns (accepted: bool, error: Option<AppendError>)
      requires Valid()
      modifies this
      ensures Valid()
      ensures accepted <==> !ctxDone && Appended(old(records), record).error.None?
      ensures ctxDone ==> records == old(records) && error.None?
      ensures !ctxDone ==> Appending(records, error) == Appended(old(records), record)
      ensures old(records) <= records
    {
      if ctxDone {
        return false, None;
      }
      if !ValidRecord(record) {
        return false, Some(InvalidRecord);
      }
      var key := KeyOf(record);
      assert key in byKey ==> Lookup(records, key) == Some(byKey[key]) by {
        if key in byKey {
          IndexAgrees(key);
        }
      }
      if key in byKey {
        if byKey[key] == record {
          return true, None;
        }
        return false, Some(Conflict);
      }
      byKey := byKey[key := record];
      records := records + [record];
      return true, None;
    }

    lemma IndexAgrees(key: Key)
      requires Valid() && key in byKey
      ensures Lookup(records, key) == Some(byKey[key])
    {
      assert byKey[key] in records;
      var found := Lookup(records, key);
      assert found.Some?;
      var i :| 0 <= i < |records| && records[i] == found.value;
    }

    /** Records matching the query in append order, cut to the limit. */
    method List(ctxDone: bool, query: Query) returns (listed: bool, result: seq<Record>)
      requires Valid()
      ensures listed <==> !ctxDone && ValidQuery(query)
      ensures listed ==> result == Page(Matching(records, query), query.limit)
      ensures !listed ==> result == []
    {
      result := [];
      if ctxDone || !ValidQuery(query) {
        return false, result;
      }
      var index := 0;
      while index < |records|
        invariant 0 <= index <= |records|
        invariant result == Matching(records[..index], query)
        invariant query.limit > 0 ==> |result| < query.limit
      {
        var record := records[index];
        assert records[..index + 1] == records[..index] + [record];
        MatchingAppend(records[..index], record, query);
        if Matches(record, query) {
          result := result + [record];
          if query.limit > 0 && |result| == query.limit {
            MatchingGrows(records, index + 1, query);
            return true, result;
          }
        }
        index := index + 1;
      }
      assert records[..index] == records;
      return true, result;
    }
  }
}
