/** One summary for each run of a session, from the session's records, in which the
    runs are interleaved (workflow/runlog.go). */
module SessionRuns {
  import opened Options
  import opened Runlog
  import opened CheckpointStore
  import opened RunProtocol
  import opened RunInvariant
  import opened RunTheorems
  import opened RunLaws
  import opened RunProgress
  import opened RunEndings
  import opened RunLifecycle

  const DEFAULT_RECORD_LIMIT := 10000

  datatype RunStatus = NotStarted | RunRunning | RunInterrupted | RunEnded(outcome: Outcome)

  datatype Summary = Summary(
    sessionID: string,
    runID: string,
    definitionID: string,
    definitionVersion: string,
    parentRunID: string,
    status: RunStatus,
    startedAt: Time,
    updatedAt: Time,
    endedAt: Time)

  datatype Listing = Runs(summaries: seq<Summary>) | Refused | ListFailed | TooMany | Inconsistent(runID: string)

  function Opened(record: Record): Summary {
    Summary(record.sessionID, record.runID, record.definitionID, record.definitionVersion, record.parentRunID,
      NotStarted, record.timestamp, 0, 0)
  }

  /** applyLifecycle: the summary after one more event, if the event fits. */
  function ApplyLifecycle(summary: Summary, record: Record): Option<Summary> {
    if summary.status.RunEnded? then None
    else if StartsRun(record.eventType) then
      if summary.status == NotStarted then Some(summary.(status := RunRunning)) else None
    else if record.eventType == WorkflowResumed then
      if summary.status != NotStarted then Some(summary.(status := RunRunning)) else None
    else if record.eventType == WorkflowInterrupted then
      if summary.status == RunRunning then Some(summary.(status := RunInterrupted, endedAt := 0)) else None
    else if record.eventType.WorkflowEnded? then
      if summary.status != NotStarted then
        Some(summary.(status := RunEnded(record.eventType.outcome), endedAt := record.timestamp)) else None
    else if summary.status == NotStarted then None
    else Some(summary)
  }

  predicate SameRun(summary: Summary, record: Record, sessionID: string) {
    && record.sessionID == sessionID == summary.sessionID && record.definitionID == summary.definitionID
    && record.definitionVersion == summary.definitionVersion && record.parentRunID == summary.parentRunID
  }

  function Applied(summary: Summary, record: Record, sessionID: string): Option<Summary> {
    if !SameRun(summary, record, sessionID) then None
    else
      match ApplyLifecycle(summary, record)
      case None => None
      case Some(next) => Some(next.(updatedAt := record.timestamp))
  }

  // ----- one run at a time -----

  /** The summary of one run's records on their own. */
  function Summarize(records: seq<Record>, sessionID: string): Option<Summary>
    requires records != []
  {
    var last := |records| - 1;
    if last == 0 then Applied(Opened(records[0]), records[0], sessionID)
    else
      match Summarize(records[..last], sessionID)
      case None => None
      case Some(summary) => Applied(summary, records[last], sessionID)
  }

  /** The runs in the order in which they first appear. */
  function FirstRuns(records: seq<Record>): (runs: seq<string>)
    ensures forall runID :: runID in runs <==> exists i :: 0 <= i < |records| && records[i].runID == runID
    ensures forall i, j :: 0 <= i < j < |runs| ==> runs[i] != runs[j]
  {
    if records == [] then []
    else
      var last := |records| - 1;
      var earlier := FirstRuns(records[..last]);
      assert forall i :: 0 <= i < last ==> records[i] == records[..last][i];
      if records[last].runID in earlier then earlier else earlier + [records[last].runID]
  }

  /** Every run can be summarized on its own. */
  ghost predicate AllSummarized(records: seq<Record>, sessionID: string) {
    forall runID :: runID in FirstRuns(records) ==>
      RunRecords(records, runID) != [] && Summarize(RunRecords(records, runID), sessionID).Some?
  }

  /** These are the summaries of the runs, in order. */
  ghost predicate SummaryOfEach(records: seq<Record>, sessionID: string, summaries: seq<Summary>) {
    && |summaries| == |FirstRuns(records)|
    && forall i :: 0 <= i < |summaries| ==> IsSummary(records, sessionID, FirstRuns(records)[i], summaries[i])
  }

  ghost predicate IsSummary(records: seq<Record>, sessionID: string, runID: string, summary: Summary) {
    RunRecords(records, runID) != [] && Summarize(RunRecords(records, runID), sessionID) == Some(summary)
  }

  // ----- all runs at once -----

  /** Lists the runs of a session: refused without a session or with a limit out of
      bounds; otherwise one pass over what the log lists gives for each run just what
      its own records say, whatever the others did in between. */
  method ListSessionRuns(log: Query -> Option<seq<Record>>, sessionID: string,
                         maxRecords: int) returns (listing: Listing)
    ensures listing == Refused <==> sessionID == "" || maxRecords < 0 || maxRecords > DEFAULT_RECORD_LIMIT
    ensures var limit := if maxRecords == 0 then DEFAULT_RECORD_LIMIT else maxRecords;
            var listed := log(Query(sessionID, "", 0, limit + 1));
            listing != Refused ==>
              && (listing == ListFailed <==> listed.None?)
              && (listing == TooMany <==> listed.Some? && |listed.value| > limit)
              && (listing.Runs? <==> listed.Some? && |listed.value| <= limit && AllSummarized(listed.value, sessionID))
              && (listing.Runs? ==> SummaryOfEach(listed.value, sessionID, listing.summaries))
  {
    hide Applied, Summarize, RunRecords, FirstRuns, SummaryOfEach, AllSummarized, Indexed;
    if sessionID == "" || maxRecords < 0 || maxRecords > DEFAULT_RECORD_LIMIT {
      return Refused;
    }
    var limit := if maxRecords == 0 then DEFAULT_RECORD_LIMIT else maxRecords;
    var listed := log(Query(sessionID, "", 0, limit + 1));
    if listed.None? {
      return ListFailed;
    }
    var records := listed.value;
    if |records| > limit {
      return TooMany;
    }
    var summaries: seq<Summary>, byRunID: map<string, nat> := [], map[];
    NothingListed(records, sessionID);
    for index := 0 to |records|
      invariant SummaryOfEach(records[..index], sessionID, summaries)
      invariant Indexed(FirstRuns(records[..index]), byRunID)
    {
      var record := records[index];
      FirstRunsMore(records, index);
      CurrentSummary(records, index, sessionID, summaries, byRunID);
      var summary := if record.runID in byRunID then summaries[byRunID[record.runID]] else Opened(record);
      var next := Applied(summary, record, sessionID);
      if next.None? {
        StuckForGood(records, index, sessionID, record.runID);
        return Inconsistent(record.runID);
      }
      SummariesMore(records, index, sessionID, summaries, byRunID, next.value);
      if record.runID in byRunID {
        summaries := summaries[byRunID[record.runID] := next.value];
      } else {
        byRunID := byRunID[record.runID := |summaries|];
        summaries := summaries + [next.value];
      }
    }
    assert records[..|records|] == records;
    EachIsSummarized(records, sessionID, summaries);
    return Runs(summaries);
  }

  lemma NothingListed(records: seq<Record>, sessionID: string)
    ensures SummaryOfEach(records[..0], sessionID, []) && Indexed(FirstRuns(records[..0]), map[])
  {
  }

  lemma EachIsSummarized(records: seq<Record>, sessionID: string, summaries: seq<Summary>)
    requires SummaryOfEach(records, sessionID, summaries)
    ensures AllSummarized(records, sessionID)
  {
    hide Summarize, RunRecords, FirstRuns;
    forall runID | runID in FirstRuns(records)
      ensures RunRecords(records, runID) != [] && Summarize(RunRecords(records, runID), sessionID).Some?
    {
      var i :| 0 <= i < |summaries| && FirstRuns(records)[i] == runID;
      assert IsSummary(records, sessionID, FirstRuns(records)[i], summaries[i]);
    }
  }

  /** The index says where each run's summary is. */
  ghost predicate Indexed(runs: seq<string>, byRunID: map<string, nat>) {
    && (forall runID :: runID in byRunID <==> runID in runs)
    && (forall runID :: runID in byRunID ==> byRunID[runID] < |runs| && runs[byRunID[runID]] == runID)
  }

  lemma FirstRunsMore(records: seq<Record>, index: nat)
    requires index < |records|
    ensures var runs, runID := FirstRuns(records[..index]), records[index].runID;
            FirstRuns(records[..index + 1]) == if runID in runs then runs else runs + [runID]
  {
    assert records[..index + 1][..index] == records[..index];
  }

  lemma RecordsMore(records: seq<Record>, index: nat, runID: string)
    requires index < |records|
    ensures RunRecords(records[..index + 1], runID)
         == RunRecords(records[..index], runID) + (if records[index].runID == runID then [records[index]] else [])
  {
    assert records[..index + 1] == records[..index] + [records[index]];
    RunRecordsAppend(records[..index], records[index], runID);
  }

  /** A run has records exactly if it appears. */
  lemma AppearsIff(records: seq<Record>, runID: string)
    ensures runID in FirstRuns(records) <==> RunRecords(records, runID) != []
  {
    if runID in FirstRuns(records) {
      var i :| 0 <= i < |records| && records[i].runID == runID;
      assert records[i] in RunRecords(records, runID);
    }
  }

  lemma SummarizedNext(records: seq<Record>, next: Record, sessionID: string)
    ensures records == [] ==> Summarize([next], sessionID) == Applied(Opened(next), next, sessionID)
    ensures records != [] ==>
              Summarize(records + [next], sessionID) == match Summarize(records, sessionID)
                                                        case None => None
                                                        case Some(summary) => Applied(summary, next, sessionID)
  {
    hide Applied;
    if records != [] {
      assert (records + [next])[..|records|] == records;
    }
  }

  /** The summary kept so far for the record's run is that of its earlier records. */
  lemma CurrentSummary(records: seq<Record>, index: nat, sessionID: string, summaries: seq<Summary>,
                       byRunID: map<string, nat>)
    requires index < |records| && SummaryOfEach(records[..index], sessionID, summaries)
    requires Indexed(FirstRuns(records[..index]), byRunID)
    ensures var runID := records[index].runID;
            && (runID in byRunID ==> byRunID[runID] < |summaries|)
            && var summary := if runID in byRunID then summaries[byRunID[runID]] else Opened(records[index]);
               Summarize(RunRecords(records[..index], runID) + [records[index]], sessionID)
                 == Applied(summary, records[index], sessionID)
  {
    hide Summarize, Applied, RunRecords, FirstRuns;
    var runID := records[index].runID;
    AppearsIff(records[..index], runID);
    SummarizedNext(RunRecords(records[..index], runID), records[index], sessionID);
    if runID in byRunID {
      assert IsSummary(records[..index], sessionID, FirstRuns(records[..index])[byRunID[runID]],
        summaries[byRunID[runID]]);
    } else {
      assert [] + [records[index]] == [records[index]];
    }
  }

  lemma SummariesMore(records: seq<Record>, index: nat, sessionID: string, summaries: seq<Summary>,
                      byRunID: map<string, nat>, next: Summary)
    requires index < |records| && SummaryOfEach(records[..index], sessionID, summaries)
    requires Indexed(FirstRuns(records[..index]), byRunID)
    requires Summarize(RunRecords(records[..index], records[index].runID) + [records[index]], sessionID) == Some(next)
    requires records[index].runID in byRunID ==> byRunID[records[index].runID] < |summaries|
    ensures var runID := records[index].runID;
            if runID in byRunID then SummaryOfEach(records[..index + 1], sessionID, summaries[byRunID[runID] := next])
            else SummaryOfEach(records[..index + 1], sessionID, summaries + [next])
    ensures var runID := records[index].runID;
            Indexed(FirstRuns(records[..index + 1]), if runID in byRunID then byRunID
              else byRunID[runID := |summaries|])
  {
    hide Summarize, RunRecords, FirstRuns;
    var runID, runs := records[index].runID, FirstRuns(records[..index]);
    var after := if runID in byRunID then summaries[byRunID[runID] := next] else summaries + [next];
    FirstRunsMore(records, index);
    forall i | 0 <= i < |after|
      ensures IsSummary(records[..index + 1], sessionID, FirstRuns(records[..index + 1])[i], after[i])
    {
      var run := FirstRuns(records[..index + 1])[i];
      RecordsMore(records, index, run);
      if run != runID {
        assert IsSummary(records[..index], sessionID, runs[i], summaries[i]);
        assert RunRecords(records[..index], run) + [] == RunRecords(records[..index], run);
      }
    }
  }

  lemma {:induction false} SummarizedSoFar(records: seq<Record>, count: nat, sessionID: string)
    requires 0 < count <= |records| && Summarize(records, sessionID).Some?
    ensures Summarize(records[..count], sessionID).Some?
    decreases |records|
  {
    if count == |records| {
      assert records[..count] == records;
    } else {
      var earlier := records[..|records| - 1];
      assert earlier[..count] == records[..count];
      SummarizedSoFar(earlier, count, sessionID);
    }
  }

  lemma {:induction false} RecordsSoFar(records: seq<Record>, count: nat, runID: string)
    requires count <= |records|
    ensures RunRecords(records[..count], runID) <= RunRecords(records, runID)
    decreases |records| - count
  {
    if count < |records| {
      RecordsMore(records, count, runID);
      RecordsSoFar(records, count + 1, runID);
    } else {
      assert records[..count] == records;
    }
  }

  /** A run that cannot be summarized so far cannot be summarized at all. */
  lemma StuckForGood(records: seq<Record>, index: nat, sessionID: string, runID: string)
    requires index < |records| && records[index].runID == runID
    requires Summarize(RunRecords(records[..index], runID) + [records[index]], sessionID).None?
    ensures !AllSummarized(records, sessionID)
  {
    hide Summarize, RunRecords;
    var part, whole := RunRecords(records[..index], runID) + [records[index]], RunRecords(records, runID);
    RecordsMore(records, index, runID);
    RecordsSoFar(records, index + 1, runID);
    assert part == whole[..|part|];
    if whole != [] && Summarize(whole, sessionID).Some? {
      SummarizedSoFar(whole, |part|, sessionID);
    }
  }

  // ----- what a summary says -----

  /** Whether an event changes what a run is doing. */
  predicate Lifecycle(eventType: EventType) {
    StartsRun(eventType) || eventType == WorkflowResumed || eventType == WorkflowInterrupted || eventType.WorkflowEnded?
  }

  function StatusAfter(eventType: EventType): RunStatus {
    if eventType.WorkflowEnded? then RunEnded(eventType.outcome)
    else if eventType == WorkflowInterrupted then RunInterrupted else RunRunning
  }

  /** The number of the last event that did. */
  function LastLifecycle(records: seq<Record>): (last: int)
    ensures -1 <= last < |records| && (last >= 0 ==> Lifecycle(records[last].eventType))
    ensures forall i :: last < i < |records| ==> !Lifecycle(records[i].eventType)
  {
    if records == [] then -1
    else if Lifecycle(records[|records| - 1].eventType) then |records| - 1
    else LastLifecycle(records[..|records| - 1])
  }

  /** The events fit: the first starts the run and no other does, nothing follows the
      end, and the run is not interrupted while it is. */
  ghost predicate WellOrdered(records: seq<Record>) {
    forall i :: 0 <= i < |records| ==> Fits(records, i)
  }

  ghost predicate Fits(records: seq<Record>, index: nat)
    requires index < |records|
  {
    var eventType := records[index].eventType;
    && (index == 0 <==> StartsRun(eventType))
    && (eventType.WorkflowEnded? ==> index == |records| - 1)
    && (index > 0 && eventType == WorkflowInterrupted ==>
          var last := LastLifecycle(records[..index]); last >= 0 && records[last].eventType != WorkflowInterrupted)
  }

  ghost predicate OneRun(records: seq<Record>, sessionID: string) {
    forall i :: 0 <= i < |records| ==> SameOrigin(records[i], records[0], sessionID)
  }

  ghost predicate SameOrigin(record: Record, first: Record, sessionID: string) {
    && record.sessionID == sessionID && record.definitionID == first.definitionID
    && record.definitionVersion == first.definitionVersion && record.parentRunID == first.parentRunID
  }

  /** A summary says of a run what its first record does, when it was last heard of, and
      when it ended if it did. */
  ghost predicate Summarizes(summary: Summary, records: seq<Record>, sessionID: string)
    requires records != []
  {
    var first, last := records[0], records[|records| - 1];
    && summary.sessionID == sessionID && summary.runID == first.runID && summary.definitionID == first.definitionID
    && summary.definitionVersion == first.definitionVersion && summary.parentRunID == first.parentRunID
    && summary.startedAt == first.timestamp && summary.updatedAt == last.timestamp
    && summary.endedAt == (if last.eventType.WorkflowEnded? then last.timestamp else 0)
  }

  /** A run is listed exactly if all its records agree on what it is a run of and its
      events fit; it is then in the state its last lifecycle event left it in. */
  lemma {:induction false} SummarizedIff(records: seq<Record>, sessionID: string)
    requires records != []
    ensures Summarize(records, sessionID).Some? <==> OneRun(records, sessionID) && WellOrdered(records)
    ensures Summarize(records, sessionID).Some? ==>
              var summary := Summarize(records, sessionID).value;
              && LastLifecycle(records) >= 0 && summary.status == StatusAfter(records[LastLifecycle(records)].eventType)
              && Summarizes(summary, records, sessionID)
  {
    var last := |records| - 1;
    if last == 0 {
      assert Fits(records, 0) <==> StartsRun(records[0].eventType);
    } else {
      var earlier := records[..last];
      SummarizedIff(earlier, sessionID);
      EarlierFit(records);
      EarlierRun(records, sessionID);
      if Summarize(earlier, sessionID).Some? {
        NextFits(records, Summarize(earlier, sessionID).value);
      }
      hide Fits, WellOrdered, OneRun, ApplyLifecycle, LastLifecycle, StatusAfter;
    }
  }

  lemma EarlierRun(records: seq<Record>, sessionID: string)
    requires |records| > 1
    ensures var last := |records| - 1;
            OneRun(records, sessionID) <==>
              OneRun(records[..last], sessionID) && SameOrigin(records[last], records[0], sessionID)
  {
    hide SameOrigin;
    var last := |records| - 1;
    assert forall i :: 0 <= i < last ==> records[..last][i] == records[i];
  }

  /** A summary takes in one more event exactly if the run did not end before and the event fits. */
  lemma NextFits(records: seq<Record>, summary: Summary)
    requires |records| > 1 && WellOrdered(records[..|records| - 1])
    requires var ended := LastLifecycle(records[..|records| - 1]);
      ended >= 0 && summary.status == StatusAfter(records[ended].eventType)
    ensures var last := |records| - 1;
            var next := ApplyLifecycle(summary, records[last]);
            && (next.Some? <==> !records[last - 1].eventType.WorkflowEnded? && Fits(records, last))
            && (next.Some? ==>
                  && LastLifecycle(records) >= 0
                  && next.value.status == StatusAfter(records[LastLifecycle(records)].eventType)
                  && next.value == summary.(status := next.value.status, endedAt := next.value.endedAt)
                  && next.value.endedAt == (if records[last].eventType.WorkflowEnded? then records[last].timestamp
                       else if records[last].eventType == WorkflowInterrupted then 0 else summary.endedAt))
  {
    var last := |records| - 1;
    var earlier := records[..last];
    assert Fits(earlier, LastLifecycle(earlier));
    LastOf(records);
    EndIsLast(earlier);
    hide LastLifecycle, WellOrdered;
    assert records[..last] == earlier && records[last - 1] == earlier[last - 1];
    FitsNext(records);
    hide Fits;
  }

  lemma FitsNext(records: seq<Record>)
    requires |records| > 1
    ensures var last := |records| - 1;
            var eventType, earlier := records[last].eventType, LastLifecycle(records[..last]);
            Fits(records, last) <==>
              !StartsRun(eventType)
              && (eventType == WorkflowInterrupted ==>
                    earlier >= 0 && records[earlier].eventType != WorkflowInterrupted)
  {
  }

  lemma LastOf(records: seq<Record>)
    requires records != []
    ensures var last := |records| - 1;
            LastLifecycle(records)
              == if Lifecycle(records[last].eventType) then last else LastLifecycle(records[..last])
  {
  }

  /** If a run ended, its end is its last lifecycle event. */
  lemma EndIsLast(records: seq<Record>)
    requires records != [] && WellOrdered(records) && LastLifecycle(records) >= 0
    ensures records[LastLifecycle(records)].eventType.WorkflowEnded?
       <==> records[|records| - 1].eventType.WorkflowEnded?
  {
    assert Fits(records, LastLifecycle(records));
  }

  lemma EarlierFit(records: seq<Record>)
    requires |records| > 1
    ensures var last := |records| - 1;
            WellOrdered(records) <==>
              WellOrdered(records[..last]) && !records[last - 1].eventType.WorkflowEnded? && Fits(records, last)
  {
    var last := |records| - 1;
    var earlier := records[..last];
    forall i | 0 <= i < last
      ensures Fits(records, i) <==> Fits(earlier, i) && !(i == last - 1 && records[i].eventType.WorkflowEnded?)
    {
      assert records[..i] == earlier[..i];
    }
  }

  // ----- the journals the protocol writes -----

  /** The run was reported to start once and for all before anything else. */
  ghost predicate StartsOnce(journal: seq<Record>) {
    && journal != [] && StartsRun(journal[0].eventType)
    && forall i :: 0 < i < |journal| ==> !StartsRun(journal[i].eventType)
  }

  /** The events of a journal fit exactly if it starts the run once and first. */
  lemma FitsIffStartsOnce(journal: seq<Record>)
    requires journal != [] && Separated(journal)
    requires forall i :: 0 <= i < |journal| && journal[i].eventType.WorkflowEnded? ==> i == |journal| - 1
    ensures WellOrdered(journal) <==> StartsOnce(journal)
  {
    if StartsOnce(journal) {
      forall i | 0 <= i < |journal|
        ensures Fits(journal, i)
      {
        if i > 0 && journal[i].eventType == WorkflowInterrupted {
          AwokenBetween(journal, i);
        }
      }
    }
    if WellOrdered(journal) {
      forall i | 0 <= i < |journal|
        ensures i == 0 <==> StartsRun(journal[i].eventType)
      {
        assert Fits(journal, i);
      }
    }
  }

  lemma AwokenBetween(journal: seq<Record>, index: nat)
    requires 0 < index < |journal| && Separated(journal) && StartsRun(journal[0].eventType)
    requires journal[index].eventType == WorkflowInterrupted
    ensures var last := LastLifecycle(journal[..index]); last >= 0 && journal[last].eventType != WorkflowInterrupted
  {
    var before := journal[..index];
    var last := LastLifecycle(before);
    assert before[0] == journal[0] && Lifecycle(before[0].eventType);
    forall k | last < k < index
      ensures !StartsAttempt(journal[k].eventType)
    {
      assert before[k] == journal[k];
    }
    assert !Reawakened(journal, last, index);
  }

  lemma OneRunOfJournal(run: RunConfig, journal: seq<Record>)
    requires GenuineJournal(run, journal) && journal != []
    ensures OneRun(journal, run.identity.sessionID)
  {
  }

  /** A run's journal is listed exactly if the start of the run was made durable and was
      not reported again by a later attempt. */
  lemma ListedIff(run: RunConfig, moves: seq<Move>)
    requires ValidRun(run) && ClockRuns(moves) && Execution(run, moves).store.journal != []
    ensures var store := Execution(run, moves).store;
            Summarize(store.journal, run.identity.sessionID).Some?
            <==> StartedDurably(store.history) && forall i :: 0 < i < |store.journal| ==>
              !StartsRun(store.journal[i].eventType)
  {
    hide Execution, Summarize, WellOrdered, OneRun;
    var store := Execution(run, moves).store;
    SummarizedIff(store.journal, run.identity.sessionID);
    AttemptsAreInOrder(run, moves);
    TerminalEventIsLast(run, moves);
    Reachable(run, moves);
    OneRunOfJournal(run, store.journal);
    FitsIffStartsOnce(store.journal);
  }

  /** A run that is neither a retry nor a jump is listed exactly if its start was made
      durable. */
  lemma NaturalIsListedIff(run: RunConfig, moves: seq<Move>)
    requires ValidRun(run) && ClockRuns(moves) && Execution(run, moves).store.journal != [] && Natural(run)
    ensures var store := Execution(run, moves).store;
            Summarize(store.journal, run.identity.sessionID).Some? <==> StartedDurably(store.history)
  {
    hide Execution, Summarize, StartedDurably;
    ListedIff(run, moves);
    AttemptsAreInOrder(run, moves);
  }

  /** The summary of a listed run agrees with its checkpoint: an ended run is listed with
      its outcome, an interrupted one as interrupted. */
  lemma SummaryAgrees(run: RunConfig, moves: seq<Move>)
    requires ValidRun(run) && ClockRuns(moves) && Execution(run, moves).store.head.Some?
    requires Execution(run, moves).store.journal != []
    ensures var store := Execution(run, moves).store;
            var summary := Summarize(store.journal, run.identity.sessionID);
            summary.Some? ==>
              && (store.head.value.status.Ended? ==> summary.value.status == RunEnded(store.head.value.status.outcome))
              && (store.head.value.status == CheckpointStore.Interrupted ==> summary.value.status == RunInterrupted)
  {
    hide Execution, ClockRuns, Summarize;
    var store := Execution(run, moves).store;
    SummarizedIff(store.journal, run.identity.sessionID);
    if store.head.value.status.Ended? {
      TerminalEventIsLast(run, moves);
    } else if store.head.value.status == CheckpointStore.Interrupted {
      var events, first := InterruptedAfterWholeBatch(run, moves);
      ClosesBatch(run, store.head.value.payload.pendingInterrupts, events);
      assert store.journal[|store.journal| - |events| + (|events| - 1)] == Entry(run, events[|events| - 1]);
    }
  }

  lemma ClosesBatch(run: RunConfig, waits: seq<PendingInterrupt>, events: seq<Event>)
    requires BatchShaped(run, waits, events)
    ensures events != [] && Entry(run, events[|events| - 1]).eventType == WorkflowInterrupted
  {
  }

  /** It happens that a run is not listed: its process stopped right after creating it, and
      somebody resumed it. */
  lemma ResumedUnstarted(run: RunConfig, ownerID: string, other: string, work: Work) returns (moves: seq<Move>)
    requires ValidRun(run) && ownerID != "" && other != "" && 0 < work.size <= MAX_PAYLOAD_BYTES
    ensures ClockRuns(moves) && Execution(run, moves).store.journal != []
    ensures Summarize(Execution(run, moves).store.journal, run.identity.sessionID).None?
  {
    hide Execution, Summarize, ClockRuns, Carried, Consistent, Holds, StartedDurably;
    var begun, moved := Begins(run, ownerID, Env(1, false, work));
    PositiveLease(moved, 1 + run.leaseDuration);
    var env := Env(moved.store.head.value.leaseExpiresAt, false, work);
    var world: World := k => env;
    var taken, next, after := TakesOver(run, begun, 0, moved, 1 + run.leaseDuration, other, env);
    LoadsQuietly(run, world, after, env, env.now + run.leaseDuration);
    moves := ContinuesAlone(run, taken, next, world, after, env, 3);
    ListedIff(run, moves);
    AttemptsAreInOrder(run, moves);
  }

  lemma PositiveLease(moved: Moved, lease: Time)
    requires Holds(moved, lease) && lease > 0
    ensures moved.store.head.Some? && moved.store.head.value.leaseExpiresAt > 0
  {
  }

  /** And a retried run is not listed any more once it was resumed: it reports the retry
      again. */
  lemma ResumedRetry(run: RunConfig, ownerID: string, other: string, work: Work) returns (moves: seq<Move>)
    requires ValidRun(run) && ownerID != "" && other != "" && 0 < work.size <= MAX_PAYLOAD_BYTES && !Natural(run)
    ensures ClockRuns(moves) && Execution(run, moves).store.journal != []
    ensures Summarize(Execution(run, moves).store.journal, run.identity.sessionID).None?
  {
    hide Execution, Summarize, ClockRuns, Carried, Consistent, Holds, StartedDurably, Go;
    var first, lease := Env(1, false, work), 1 + run.leaseDuration;
    var still: World := k => first;
    var begun, moved := Begins(run, ownerID, first);
    var started := ContinuesAlone(run, begun, 0, still, moved, first, 4);
    StartsQuietly(run, still, moved, first, lease);
    var working := Carried(run, still, moved, 0, 4);
    PositiveLease(working, lease);
    var env := Env(working.store.head.value.leaseExpiresAt, false, work);
    var later, world: World := env.now + run.leaseDuration, k => env;
    var taken, next, after := TakesOver(run, started, 0, working, lease, other, env);
    LoadsQuietly(run, world, after, env, later);
    var loaded := Carried(run, world, after, 0, 3);
    var resumed := ContinuesAlone(run, taken, next, world, after, env, 3);
    AttemptsQuietly(run, loaded, env, later);
    var saved := Go(run, loaded, Continue, env);
    ContinueAlone(run, resumed, next, loaded, env);
    ContinueAlone(run, resumed + [Move(Act(next, Continue), env)], next, saved, env);
    moves := resumed + [Move(Act(next, Continue), env)] + [Move(Act(next, Continue), env)];
    ClockRunsOn(resumed, Move(Act(next, Continue), env));
    ClockRunsOn(resumed + [Move(Act(next, Continue), env)], Move(Act(next, Continue), env));
    ListedIff(run, moves);
  }

  /** A resumed attempt is reported behind what the journal holds. */
  lemma AttemptsQuietly(run: RunConfig, moved: Moved, env: Env, lease: Time)
    requires ValidRun(run) && Quiet(env, lease) && Undisturbed(run, moved, lease) && moved.owner.control == Resuming
    requires !Natural(run)
    requires moved.owner.sequence >= 1
    ensures var after := Go(run, Go(run, moved, Continue, env), Continue, env);
            exists i :: 0 < i < |after.store.journal| && StartsRun(after.store.journal[i].eventType)
  {
    hide Go, Consistent, Holds;
    var saved := Go(run, moved, Continue, env);
    SavesAttempt(run, moved, env, lease);
    GoKeeps(run, moved, env);
    EmitsAttempt(run, saved, env, lease);
  }

  lemma EmitsAttempt(run: RunConfig, moved: Moved, env: Env, lease: Time)
    requires ValidRun(run) && Quiet(env, lease) && Undisturbed(run, moved, lease) && moved.owner.sequence >= 1
    requires moved.owner.control.Journaling? && moved.owner.control.purpose == Begin
    requires StartsRun(moved.owner.control.event.eventType)
    ensures var after := Go(run, moved, Continue, env);
            exists i :: 0 < i < |after.store.journal| && StartsRun(after.store.journal[i].eventType)
  {
    var event := moved.owner.control.event;
    HoldingFacts(run, moved, lease);
    QuietJournal(run, moved, env, lease);
    AppendsQuietly(run, moved, event, Begin, env, lease);
    GoKeeps(run, moved, env);
    var after := Go(run, moved, Continue, env);
    EntryType(run, after.owner.control.event);
    DeliveringFacts(run, after, lease);
    assert StartsRun(after.store.journal[after.owner.sequence - 1].eventType);
    hide Go, Consistent, Current, Entry, Holds;
  }

  lemma DeliveringFacts(run: RunConfig, moved: Moved, lease: Time)
    requires Undisturbed(run, moved, lease) && moved.owner.control.Delivering?
    ensures 1 <= moved.owner.sequence <= |moved.store.journal|
    ensures moved.store.journal[moved.owner.sequence - 1] == Entry(run, moved.owner.control.event)
  {
    HoldingFacts(run, moved, lease);
    hide Consistent, Entry;
  }
}
