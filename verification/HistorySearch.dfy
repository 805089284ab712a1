/** Paged searches through a run's history: the first journal record that matches, and
    the last stable checkpoint at a sequence (workflow/control.go). */
module HistorySearch {
  import opened Options
  import opened Runlog
  import opened CheckpointStore

  const HISTORY_PAGE_SIZE := 256
  const DEFAULT_HISTORY_RECORD_LIMIT := 10000

  datatype Answer<T> =
    | Found(value: T)
    | Missing
    | ListFailed
    | TooManyListed
    | LimitExceeded
    | OutOfOrder

  /** How many records the next page may hold: one more than the limit leaves, so that
      exceeding it is noticed. */
  function NextLimit(total: int): (limit: int)
    requires total <= DEFAULT_HISTORY_RECORD_LIMIT
    ensures 1 <= limit <= HISTORY_PAGE_SIZE && total + limit <= DEFAULT_HISTORY_RECORD_LIMIT + 1
  {
    var left := DEFAULT_HISTORY_RECORD_LIMIT - total + 1;
    if left < HISTORY_PAGE_SIZE then left else HISTORY_PAGE_SIZE
  }

  // ----- one linear scan -----

  /** The first match among the records of a history, looked for in as many of them as
      the limit allows. */
  function FirstMatch(journal: seq<Record>, matches: Record -> bool): Answer<Record> {
    var first := FirstIndex(journal, matches);
    if first < |journal| && first < DEFAULT_HISTORY_RECORD_LIMIT then Found(journal[first])
    else if |journal| > DEFAULT_HISTORY_RECORD_LIMIT then LimitExceeded
    else Missing
  }

  ghost predicate NoMatch(journal: seq<Record>, matches: Record -> bool, count: int) {
    forall i :: 0 <= i < count && i < |journal| ==> !matches(journal[i])
  }

  function FirstIndex(journal: seq<Record>, matches: Record -> bool): (first: nat)
    ensures first <= |journal| && (first < |journal| ==> matches(journal[first]))
    ensures forall i :: 0 <= i < first ==> !matches(journal[i])
  {
    if journal == [] || matches(journal[0]) then 0
    else
      var rest := FirstIndex(journal[1..], matches);
      assert forall i :: 1 <= i < |journal| ==> journal[i] == journal[1..][i - 1];
      rest + 1
  }

  predicate Stable(record: Checkpoint, sequence: int) {
    record.confirmedSequence == sequence && record.pendingSequence == 0
  }

  predicate IsOf(record: Checkpoint, runID: string, sequence: int) {
    record.identity.runID == runID && Stable(record, sequence)
  }

  predicate IsStableOf(record: Checkpoint, runID: string, sequence: int) {
    IsOf(record, runID, sequence) && record.identity.checkpointID != ""
  }

  /** The last stable version of a history that is not too long. */
  function LastStable(history: seq<Checkpoint>, sequence: int): Answer<Checkpoint> {
    if |history| > DEFAULT_HISTORY_RECORD_LIMIT then LimitExceeded
    else
      match StableVersion(history, sequence)
      case Some(record) => Found(record)
      case None => Missing
  }

  function StableVersion(history: seq<Checkpoint>, sequence: int): Option<Checkpoint> {
    if history == [] then None
    else if Stable(history[|history| - 1], sequence) then Some(history[|history| - 1])
    else StableVersion(history[..|history| - 1], sequence)
  }

  // ----- what is searched -----

  // A log under search: what it lists at each call after a sequence, up to a limit.
  type RecordLog = (nat, int, int) -> Option<seq<Record>>
  type VersionLog = (nat, int, int) -> Option<seq<Checkpoint>>

  /** The journal of a run: its own records, numbered from 1. */
  ghost predicate Contiguous(journal: seq<Record>, runID: string) {
    forall i :: 0 <= i < |journal| ==> journal[i].runID == runID && journal[i].sequence == i + 1
  }

  /** The log lists from the run's journal, which may grow from call to call. */
  ghost predicate ListsFrom(log: RecordLog, runID: string, journals: nat -> seq<Record>) {
    forall call: nat ::
      && Contiguous(journals(call), runID) && journals(call) <= journals(call + 1)
      && forall after, limit :: 0 <= after <= |journals(call)| && limit > 0 ==>
           log(call, after, limit) == Some(Page(journals(call)[after..], limit))
  }

  /** Versions numbered from 1. */
  ghost predicate Numbered(history: seq<Checkpoint>, runID: string) {
    forall i :: 0 <= i < |history| ==>
      history[i].identity.runID == runID && history[i].version == i + 1 && history[i].identity.checkpointID != ""
  }

  ghost predicate ListsVersions(log: VersionLog, runID: string, histories: nat -> seq<Checkpoint>) {
    forall call: nat ::
      && Numbered(histories(call), runID) && histories(call) <= histories(call + 1)
      && forall after, limit :: 0 <= after <= |histories(call)| && limit > 0 ==>
           log(call, after, limit) == Some(Page(histories(call)[after..], limit))
  }

  // ----- the searches -----

  class RunLogSearch {
    const runID: string
    const matches: Record -> bool
    var after: int
    var total: int

    constructor (runID: string, matches: Record -> bool)
      ensures this.runID == runID && this.matches == matches && after == 0 && total == 0
    {
      this.runID, this.matches, after, total := runID, matches, 0, 0;
    }

    /** Takes in a page, up to the first record that matches or does not belong there. */
    method Accept(records: seq<Record>) returns (answer: Answer<Record>)
      requires 0 <= total == after <= DEFAULT_HISTORY_RECORD_LIMIT
      modifies this`after, this`total
      ensures answer == Missing ==> after == total == old(total) + |records|
      ensures Answers(records, old(total), answer)
    {
      for index := 0 to |records|
        invariant after == total == old(total) + index <= DEFAULT_HISTORY_RECORD_LIMIT
        invariant Continues(records[..index], old(after)) && NoMatch(records, matches, index)
      {
        var record := records[index];
        total := total + 1;
        if total > DEFAULT_HISTORY_RECORD_LIMIT {
          return LimitExceeded;
        }
        assert records[..index + 1] == records[..index] + [record];
        if record.runID != runID || record.sequence != after + 1 {
          assert records[..index + 1][index] == record;
          assert MisplacedAt(records, old(total), index);
          return OutOfOrder;
        }
        after := record.sequence;
        if matches(record) {
          assert FoundAt(records, old(total), record, index);
          return Found(record);
        }
      }
      assert records[..|records|] == records;
      return Missing;
    }

    /** The one answer to a page behind `after` records: whatever comes first in it, a
        match, a record out of place or the limit, and nothing if there is none of them. */
    ghost predicate Answers(records: seq<Record>, after: int, answer: Answer<Record>) {
      match answer
      case Found(record) => exists index :: FoundAt(records, after, record, index)
      case Missing => after + |records| <= DEFAULT_HISTORY_RECORD_LIMIT && Continues(records, after)
        && NoMatch(records, matches, |records|)
      case LimitExceeded => LimitAt(records, after, DEFAULT_HISTORY_RECORD_LIMIT - after)
      case OutOfOrder => exists index :: MisplacedAt(records, after, index)
      case _ => false
    }

    /** On a run's journal that is what a scan of the whole answers. */
    lemma AnsweredAsScanned(journal: seq<Record>, after: nat, records: seq<Record>, answer: Answer<Record>)
      requires Contiguous(journal, runID) && after <= DEFAULT_HISTORY_RECORD_LIMIT && NoMatch(journal, matches, after)
      requires after + |records| <= |journal| && records == journal[after..after + |records|]
      requires Answers(records, after, answer)
      ensures answer != Missing ==> answer == FirstMatch(journal, matches)
      ensures answer == Missing ==> NoMatch(journal, matches, after + |records|)
      ensures answer == Missing && after + |records| == |journal| ==> FirstMatch(journal, matches) == Missing
    {
      hide FirstMatch;
      assert forall i :: 0 <= i < |records| ==> records[i] == journal[after + i];
      assert forall i :: after <= i < after + |records| ==> journal[i] == records[i - after];
      match answer {
      case Found(record) =>
        var index :| FoundAt(records, after, record, index);
        ScannedTo(journal, matches, after + index);
      case LimitExceeded =>
        ScannedTo(journal, matches, DEFAULT_HISTORY_RECORD_LIMIT);
      case OutOfOrder =>
        assert false;
      case _ =>
        if after + |records| == |journal| {
          ScannedAll(journal, matches);
        }
      }
    }

    ghost predicate LimitAt(records: seq<Record>, after: int, index: int) {
      0 <= index < |records| && Continues(records[..index], after) && NoMatch(records, matches, index)
    }

    ghost predicate MisplacedAt(records: seq<Record>, after: int, index: int) {
      && 0 <= index < |records| && after + index < DEFAULT_HISTORY_RECORD_LIMIT
      && Continues(records[..index], after) && !Continues(records[..index + 1], after)
      && NoMatch(records, matches, index)
    }

    ghost predicate FoundAt(records: seq<Record>, after: int, record: Record, index: int) {
      && 0 <= index < |records| && after + index < DEFAULT_HISTORY_RECORD_LIMIT && record == records[index]
      && matches(record)
      && Continues(records[..index + 1], after) && NoMatch(records, matches, index)
    }

    /** The records go on after the sequence without a gap, and are the run's. */
    ghost predicate Continues(records: seq<Record>, after: int) {
      forall i :: 0 <= i < |records| ==> records[i].runID == runID && records[i].sequence == after + i + 1
    }
  }

  /** Searches the journal page by page. Whatever the log lists, as long as it keeps to
      the limits asked for, this ends, having asked for at least one record each time;
      on a run's journal it answers what one scan of it does. */
  method FindRunLogRecord(log: RecordLog, runID: string, matches: Record -> bool, ghost journals: nat -> seq<Record>)
    returns (answer: Answer<Record>, ghost calls: nat)
    ensures calls > 0
    ensures answer.Found? ==>
      matches(answer.value) && answer.value.runID == runID && 1 <= answer.value.sequence <= DEFAULT_HISTORY_RECORD_LIMIT
    ensures ListsFrom(log, runID, journals) ==> answer == FirstMatch(journals(calls - 1), matches)
  {
    hide ListsFrom, FirstMatch, NoMatch;
    var search := new RunLogSearch(runID, matches);
    var call := 0;
    NothingSearched(matches);
    ghost var faithful := ListsFrom(log, runID, journals);
    while true
      invariant search.runID == runID && search.matches == matches
      invariant 0 <= search.total == search.after <= DEFAULT_HISTORY_RECORD_LIMIT
      invariant faithful ==> search.after <= |journals(call)| && NoMatch(journals(call), matches, search.after)
      decreases DEFAULT_HISTORY_RECORD_LIMIT - search.total
    {
      var limit := NextLimit(search.total);
      var listed := log(call, search.after, limit);
      ghost var journal, before := journals(call), search.after;
      if faithful {
        ListedRecords(log, runID, journals, call, before, limit);
      }
      call, calls := call + 1, call + 1;
      if listed.None? {
        return ListFailed, calls;
      }
      var records := listed.value;
      if |records| > limit {
        return TooManyListed, calls;
      }
      if faithful {
        AcceptedFromJournal(journal, before, limit, records);
      }
      if |records| == 0 {
        if faithful {
          ScannedAll(journal, matches);
        }
        return Missing, calls;
      }
      answer := search.Accept(records);
      if faithful {
        search.AnsweredAsScanned(journal, before, records, answer);
        if answer == Missing {
          GrowsOn(journal, journals(call), matches, search.after);
        }
      }
      if answer != Missing {
        return;
      }
      if |records| < limit {
        return;
      }
    }
  }

  lemma NothingSearched(matches: Record -> bool)
    ensures forall journal: seq<Record> :: NoMatch(journal, matches, 0)
  {
  }

  /** No match before the index: there, or at the limit, the scan ends. */
  lemma ScannedTo(journal: seq<Record>, matches: Record -> bool, index: nat)
    requires index < |journal| && NoMatch(journal, matches, index)
    ensures index < DEFAULT_HISTORY_RECORD_LIMIT && matches(journal[index]) ==>
      FirstMatch(journal, matches) == Found(journal[index])
    ensures index == DEFAULT_HISTORY_RECORD_LIMIT ==> FirstMatch(journal, matches) == LimitExceeded
  {
    var first := FirstIndex(journal, matches);
    assert first >= index;
  }

  lemma ScannedAll(journal: seq<Record>, matches: Record -> bool)
    requires |journal| <= DEFAULT_HISTORY_RECORD_LIMIT && NoMatch(journal, matches, |journal|)
    ensures FirstMatch(journal, matches) == Missing
  {
  }

  lemma GrowsOn(journal: seq<Record>, grown: seq<Record>, matches: Record -> bool, count: int)
    requires journal <= grown && count <= |journal| && NoMatch(journal, matches, count)
    ensures NoMatch(grown, matches, count)
  {
  }

  lemma ListedRecords(log: RecordLog, runID: string, journals: nat -> seq<Record>, call: nat, after: int, limit: int)
    requires ListsFrom(log, runID, journals) && 0 <= after <= |journals(call)| && limit > 0
    ensures log(call, after, limit) == Some(Page(journals(call)[after..], limit))
    ensures Contiguous(journals(call), runID) && journals(call) <= journals(call + 1)
  {
  }

  /** A page of a journal is the stretch of it after the sequence, and short only at the end. */
  lemma AcceptedFromJournal(journal: seq<Record>, after: nat, limit: int, records: seq<Record>)
    requires after <= |journal| && limit > 0 && records == Page(journal[after..], limit)
    ensures after + |records| <= |journal| && records == journal[after..after + |records|]
    ensures forall i :: 0 <= i < |records| ==> records[i] == journal[after + i]
    ensures |records| < limit ==> after + |records| == |journal|
  {
  }

  class CheckpointSearch {
    const runID: string
    const sequence: int
    var afterVersion: int
    var total: int
    var selected: Option<Checkpoint>

    constructor (runID: string, sequence: int)
      ensures this.runID == runID && this.sequence == sequence && afterVersion == 0 && total == 0 && selected == None
    {
      this.runID, this.sequence, afterVersion, total, selected := runID, sequence, 0, 0, None;
    }

    /** Takes in a page of versions, remembering the last stable one. */
    method Accept(records: seq<Checkpoint>) returns (answer: Answer<Checkpoint>)
      requires 0 <= total <= DEFAULT_HISTORY_RECORD_LIMIT
      modifies this`afterVersion, this`total, this`selected
      ensures answer == Missing ==> total == old(total) + |records| <= DEFAULT_HISTORY_RECORD_LIMIT
      ensures answer == Missing && records != [] ==> afterVersion == records[|records| - 1].version
      ensures answer == Missing ==>
        selected == Latest(old(selected), records, sequence) && Ascends(records, old(afterVersion), |records|)
      ensures answer == LimitExceeded ==>
                |records| > DEFAULT_HISTORY_RECORD_LIMIT - old(total)
                  && Ascends(records, old(afterVersion), DEFAULT_HISTORY_RECORD_LIMIT - old(total))
      ensures answer == OutOfOrder ==>
        exists index :: old(total) + index < DEFAULT_HISTORY_RECORD_LIMIT
          && MisplacedAt(records, old(afterVersion), index)
      ensures answer == Missing || answer == LimitExceeded || answer == OutOfOrder
    {
      for index := 0 to |records|
        invariant total == old(total) + index <= DEFAULT_HISTORY_RECORD_LIMIT
        invariant afterVersion == if index == 0 then old(afterVersion) else records[index - 1].version
        invariant selected == Latest(old(selected), records[..index], sequence)
        invariant Ascends(records, old(afterVersion), index)
      {
        var record := records[index];
        total := total + 1;
        if total > DEFAULT_HISTORY_RECORD_LIMIT {
          return LimitExceeded;
        }
        if record.identity.runID != runID || record.version <= afterVersion {
          assert MisplacedAt(records, old(afterVersion), index);
          return OutOfOrder;
        }
        afterVersion := record.version;
        if Stable(record, sequence) {
          selected := Some(record);
        }
        assert records[..index + 1][..index] == records[..index];
      }
      assert records[..|records|] == records;
      return Missing;
    }

    /** The first so many versions are the run's, and go up. */
    ghost predicate Ascends(records: seq<Checkpoint>, afterVersion: int, count: int) {
      forall i :: 0 <= i < count && i < |records| ==> AscendsAt(records, afterVersion, i)
    }

    /** Whatever is selected is a stable version of the run. */
    lemma {:induction false} LatestIsOurs(selected: Option<Checkpoint>, records: seq<Checkpoint>, afterVersion: int)
      requires Ascends(records, afterVersion, |records|) && (selected.Some? ==> IsOf(selected.value, runID, sequence))
      ensures Latest(selected, records, sequence).Some? ==>
        IsOf(Latest(selected, records, sequence).value, runID, sequence)
    {
      if records != [] {
        var last := |records| - 1;
        assert AscendsAt(records, afterVersion, last);
        forall i | 0 <= i < last
          ensures AscendsAt(records[..last], afterVersion, i)
        {
          assert AscendsAt(records, afterVersion, i);
        }
        LatestIsOurs(selected, records[..last], afterVersion);
      }
    }

    ghost predicate MisplacedAt(records: seq<Checkpoint>, afterVersion: int, index: int) {
      0 <= index < |records| && Ascends(records, afterVersion, index) && !AscendsAt(records, afterVersion, index)
    }

    lemma AscendsFrom(history: seq<Checkpoint>, after: nat, records: seq<Checkpoint>)
      requires Numbered(history, runID) && after + |records| <= |history|
      requires forall i :: 0 <= i < |records| ==> records[i] == history[after + i]
      ensures forall index :: !MisplacedAt(records, after, index)
    {
    }

    ghost predicate AscendsAt(records: seq<Checkpoint>, afterVersion: int, i: nat)
      requires i < |records|
    {
      records[i].identity.runID == runID
        && records[i].version > (if i == 0 then afterVersion else records[i - 1].version)
    }
  }

  /** The last stable one of some more versions, or the one there was. */
  function Latest(selected: Option<Checkpoint>, records: seq<Checkpoint>, sequence: int): Option<Checkpoint> {
    if records == [] then selected
    else if Stable(records[|records| - 1], sequence) then Some(records[|records| - 1])
    else Latest(selected, records[..|records| - 1], sequence)
  }

  lemma {:induction false} LatestJoined(history: seq<Checkpoint>, records: seq<Checkpoint>, sequence: int)
    ensures Latest(StableVersion(history, sequence), records, sequence) == StableVersion(history + records, sequence)
  {
    if records == [] {
      assert history + records == history;
    } else {
      var last := |records| - 1;
      assert (history + records)[..|history + records| - 1] == history + records[..last];
      LatestJoined(history, records[..last], sequence);
    }
  }

  /** Searches the versions page by page for the last stable one at a sequence: like
      above, it always ends, and on a run's history it answers what one scan does. */
  method CheckpointAtSequence(log: VersionLog, runID: string, sequence: int, ghost histories: nat -> seq<Checkpoint>)
    returns (answer: Answer<Checkpoint>, ghost calls: nat)
    ensures calls > 0
    ensures answer.Found? ==> IsStableOf(answer.value, runID, sequence)
    ensures ListsVersions(log, runID, histories) ==> answer == LastStable(histories(calls - 1), sequence)
  {
    hide Numbered, ListsVersions, StableVersion, Latest, LastStable, CheckpointSearch.Ascends;
    hide CheckpointSearch.MisplacedAt, Stable;
    var search := new CheckpointSearch(runID, sequence);
    var call := 0;
    ghost var faithful := ListsVersions(log, runID, histories);
    NothingStable(sequence);
    while true
      invariant search.runID == runID && search.sequence == sequence
      invariant 0 <= search.total <= DEFAULT_HISTORY_RECORD_LIMIT
      invariant search.selected.Some? ==> IsOf(search.selected.value, runID, sequence)
      invariant faithful ==>
                  && search.afterVersion == search.total <= |histories(call)|
                  && search.selected == StableVersion(histories(call)[..search.total], sequence)
      decreases DEFAULT_HISTORY_RECORD_LIMIT - search.total
    {
      var limit := NextLimit(search.total);
      var listed := log(call, search.afterVersion, limit);
      ghost var history, before := histories(call), search.total;
      if faithful {
        ListedVersions(log, runID, histories, call, before, limit);
      }
      call, calls := call + 1, call + 1;
      if listed.None? {
        return ListFailed, calls;
      }
      var records := listed.value;
      if |records| > limit {
        return TooManyListed, calls;
      }
      if faithful {
        VersionsFromHistory(history, before, limit, records, sequence, runID);
        search.AscendsFrom(history, before, records);
      }
      if |records| > 0 {
        ghost var selected, after := search.selected, search.afterVersion;
        answer := search.Accept(records);
        if answer == Missing {
          search.LatestIsOurs(selected, records, after);
        } else {
          if faithful {
            TooLong(history, sequence);
          }
          return;
        }
      }
      if |records| == 0 || |records| < limit {
        if faithful {
          ScanEnds(history, search.total, sequence, search.selected, runID);
        }
        return Result(search.selected), calls;
      }
      assert faithful ==> histories(call)[..search.total] == history[..search.total];
    }
  }

  lemma NothingStable(sequence: int)
    ensures forall history: seq<Checkpoint> :: StableVersion(history[..0], sequence) == None
  {
  }

  lemma TooLong(history: seq<Checkpoint>, sequence: int)
    ensures |history| > DEFAULT_HISTORY_RECORD_LIMIT ==> LastStable(history, sequence) == LimitExceeded
  {
  }

  lemma ListedVersions(log: VersionLog, runID: string, histories: nat -> seq<Checkpoint>, call: nat, after: int,
                       limit: int)
    requires ListsVersions(log, runID, histories) && 0 <= after <= |histories(call)| && limit > 0
    ensures log(call, after, limit) == Some(Page(histories(call)[after..], limit))
    ensures Numbered(histories(call), runID) && histories(call) <= histories(call + 1)
  {
  }

  lemma ScanEnds(history: seq<Checkpoint>, total: int, sequence: int, selected: Option<Checkpoint>, runID: string)
    requires Numbered(history, runID) && total == |history| <= DEFAULT_HISTORY_RECORD_LIMIT
    requires selected == StableVersion(history[..total], sequence)
    ensures Result(selected) == LastStable(history, sequence)
  {
    assert history[..total] == history;
    StableIsListed(history, sequence);
  }

  lemma {:induction false} StableIsListed(history: seq<Checkpoint>, sequence: int)
    ensures StableVersion(history, sequence).Some? ==>
              StableVersion(history, sequence).value in history
                && Stable(StableVersion(history, sequence).value, sequence)
    ensures StableVersion(history, sequence).None? ==> forall record :: record in history ==> !Stable(record, sequence)
  {
    if history != [] {
      StableIsListed(history[..|history| - 1], sequence);
    }
  }

  function Result(selected: Option<Checkpoint>): Answer<Checkpoint> {
    if selected.Some? && selected.value.identity.checkpointID != "" then Found(selected.value) else Missing
  }

  lemma VersionsFromHistory(history: seq<Checkpoint>, after: nat, limit: int, records: seq<Checkpoint>, sequence: int,
                            runID: string)
    requires Numbered(history, runID) && after <= |history| && limit > 0 && records == Page(history[after..], limit)
    ensures after + |records| <= |history| && history[..after + |records|] == history[..after] + records
    ensures |records| < limit ==> after + |records| == |history|
    ensures Latest(StableVersion(history[..after], sequence), records, sequence)
      == StableVersion(history[..after + |records|], sequence)
    ensures forall i :: 0 <= i < |records| ==> records[i] == history[after + i]
    ensures records != [] ==> records[|records| - 1].version == after + |records|
  {
    assert history[..after + |records|] == history[..after] + records;
    LatestJoined(history[..after], records, sequence);
  }

  // ----- the stores searched list just so -----

  /** A checkpoint store lists the versions after one as the stretch of history behind it. */
  lemma {:induction false} VersionsAreASuffix(history: seq<Checkpoint>, after: int)
    requires 0 <= after <= |history| && forall i :: 0 <= i < |history| ==> history[i].version == i + 1
    ensures VersionsAfter(history, after) == history[after..]
  {
    if history != [] {
      var last := |history| - 1;
      if after <= last {
        VersionsAreASuffix(history[..last], after);
        assert history[after..] == history[..last][after..] + [history[last]];
      } else {
        NoVersionsAfter(history, after);
      }
    }
  }

  lemma {:induction false} NoVersionsAfter(history: seq<Checkpoint>, after: int)
    requires forall i :: 0 <= i < |history| ==> history[i].version <= after
    ensures VersionsAfter(history, after) == []
  {
    if history != [] {
      NoVersionsAfter(history[..|history| - 1], after);
    }
  }

  /** And a log lists a run's journal the same way. */
  lemma JournalIsListed(journal: seq<Record>, runID: string, after: int, limit: int)
    requires runID != "" && Contiguous(journal, runID) && 0 <= after <= |journal|
    ensures Page(Matching(journal, Query("", runID, after, limit)), limit) == Page(journal[after..], limit)
  {
    MatchingSuffix(journal, runID, after);
    MatchingIgnoresLimit(journal, Query("", runID, after, 0), limit);
  }
}
