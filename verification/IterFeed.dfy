/** What an iterator route schedules over crashes and resumes
    (workflow/iter_source.go). */
module IterFeed {
  import opened Options

  // What pulling an item for the k-th time gives; the same each time it is asked.
  datatype Yield = Value(value: string) | Exhausted | Faulty

  type Source = nat -> Yield

  /** The first `count` items. */
  function Items(source: Source, count: nat): seq<string>
    requires forall k :: 0 <= k < count ==> source(k).Value?
  {
    seq(count, k requires 0 <= k < count => source(k).value)
  }

  // A live iterator: the items of a source from some position on.
  class LiveIterator {
    const source: Source
    var position: nat

    constructor (source: Source, position: nat)
      ensures this.source == source && this.position == position
    {
      this.source, this.position := source, position;
    }

    method Pull() returns (yielded: Yield)
      modifies this
      ensures yielded == source(old(position))
      ensures position == if yielded.Value? then old(position) + 1 else old(position)
    {
      yielded := source(position);
      if yielded.Value? {
        position := position + 1;
      }
    }

    /** skipIterator: passes over the items pulled before. */
    method Skip(count: nat) returns (ok: bool)
      modifies this
      ensures ok <==> forall k :: old(position) <= k < old(position) + count ==> source(k).Value?
      ensures ok ==> position == old(position) + count
    {
      for index := 0 to count
        invariant position == old(position) + index
        invariant forall k :: old(position) <= k < old(position) + index ==> source(k).Value?
      {
        var yielded := Pull();
        if !yielded.Value? {
          return false;
        }
      }
      return true;
    }
  }

  // What a checkpoint keeps of an iterator source, and the items it has scheduled.
  datatype Feed = Feed(pulled: nat, cursor: Option<nat>, replay: bool, open: bool, scheduled: seq<string>)

  const UNTOUCHED := Feed(0, None, false, true, [])

  /** The items scheduled are exactly the first ones of the source. */
  ghost predicate FirstItems(source: Source, feed: Feed) {
    && (forall k :: 0 <= k < feed.pulled ==> source(k).Value?)
    && feed.scheduled == Items(source, feed.pulled)
    && (feed.cursor.Some? ==> feed.replay && feed.cursor.value == feed.pulled)
    && (feed.replay && feed.pulled > 0 ==> feed.cursor.Some?)
  }

  /** What pulling once makes of it: the next item is scheduled, or the source is closed. */
  function Pulled(source: Source, feed: Feed): Feed {
    match source(feed.pulled)
    case Value(value) =>
      feed.(pulled := feed.pulled + 1, scheduled := feed.scheduled + [value],
            cursor := if feed.replay then Some(feed.pulled + 1) else None)
    case _ => feed.(open := false)
  }

  /** Where binding to what a checkpoint keeps leaves a live iterator: behind its cursor, or
      from the start behind the items it passes over. */
  function BoundAt(feed: Feed): nat {
    (if feed.cursor.Some? then feed.cursor.value else 0) + (if feed.replay then 0 else feed.pulled)
  }

  // One execution at work on an iterator source. A cursor stands for the position it
  // was captured at, which is where restoring from it goes on.
  class IterSourceFeed {
    const source: Source
    var feed: Feed
    var live: LiveIterator?

    ghost predicate Valid()
      reads this, live
    {
      && FirstItems(source, feed)
      && (live != null ==> live.source == source && (feed.open ==> live.position == feed.pulled))
    }

    /** bindIterSource: resumes from what a checkpoint keeps, by its cursor or by
        starting over and skipping what had been pulled. Skipping never fails on a
        source that yields the same again. */
    constructor (source: Source, saved: Feed)
      requires FirstItems(source, saved)
      ensures Valid() && this.source == source && feed == saved
      ensures live != null && fresh(live) && live.position == BoundAt(saved)
    {
      this.source, feed := source, saved;
      var bound := new LiveIterator(source, if saved.cursor.Some? then saved.cursor.value else 0);
      live := bound;
      new;
      if !saved.replay && saved.pulled > 0 {
        var ok := bound.Skip(saved.pulled);
        assert ok;
      }
    }

    /** pullIterSource: schedules the next item, or closes the source. */
    method PullItem() returns (ok: bool)
      requires Valid() && live != null && feed.open
      modifies this, live
      ensures Valid() && live == old(live)
      ensures feed == Pulled(source, old(feed)) && (ok <==> !source(old(feed).pulled).Faulty?)
    {
      var yielded := live.Pull();
      match yielded
      case Value(value) =>
        feed := feed.(pulled := feed.pulled + 1, scheduled := feed.scheduled + [value],
                      cursor := if feed.replay then Some(live.position) else None);
        assert feed.scheduled == Items(source, feed.pulled);
        return true;
      case Exhausted =>
        feed := feed.(open := false);
        return true;
      case Faulty =>
        feed := feed.(open := false);
        return false;
    }
  }

  // ----- over crashes and resumes -----

  // An execution goes on pulling, its state is saved, it crashes, or another one
  // resumes from what was saved last.
  datatype Happening = Pull | Save | Crash | Resume

  // What is saved, and what the execution at work has made of it.
  datatype Progress = Progress(saved: Feed, working: Option<Feed>)

  function Happens(source: Source, progress: Progress, happening: Happening): Progress {
    match happening
    case Pull => if progress.working.Some? && progress.working.value.open
                 then progress.(working := Some(Pulled(source, progress.working.value))) else progress
    case Save => if progress.working.Some? then progress.(saved := progress.working.value) else progress
    case Crash => progress.(working := None)
    case Resume => if progress.working.None? then progress.(working := Some(progress.saved)) else progress
  }

  function After(source: Source, replay: bool, happenings: seq<Happening>): Progress {
    if happenings == [] then Progress(UNTOUCHED.(replay := replay), None)
    else Happens(source, After(source, replay, happenings[..|happenings| - 1]), happenings[|happenings| - 1])
  }

  lemma PulledAreFirst(source: Source, feed: Feed)
    requires FirstItems(source, feed)
    ensures FirstItems(source, Pulled(source, feed))
  {
    if source(feed.pulled).Value? {
      assert Pulled(source, feed).scheduled == Items(source, feed.pulled + 1);
    }
  }

  /** Over all crashes and resumes, the items durably scheduled are a prefix of the
      source: none skipped, none scheduled twice. */
  lemma {:induction false} ScheduledIsPrefix(source: Source, replay: bool, happenings: seq<Happening>)
    ensures var progress := After(source, replay, happenings);
            && FirstItems(source, progress.saved)
            && (progress.working.Some? ==>
                  FirstItems(source, progress.working.value) && progress.saved.pulled <= progress.working.value.pulled)
  {
    if happenings != [] {
      var earlier := happenings[..|happenings| - 1];
      ScheduledIsPrefix(source, replay, earlier);
      var progress := After(source, replay, earlier);
      if progress.working.Some? {
        PulledAreFirst(source, progress.working.value);
      }
    }
  }

  /** What was scheduled once stays: later it is a longer prefix of the same source. */
  lemma {:induction false} ScheduledOnlyGrows(source: Source, replay: bool, happenings: seq<Happening>,
                                              more: seq<Happening>)
    ensures After(source, replay, happenings).saved.scheduled <= After(source, replay, happenings
      + more).saved.scheduled
  {
    var earlier, later := After(source, replay, happenings).saved, After(source, replay, happenings + more).saved;
    ScheduledIsPrefix(source, replay, happenings);
    ScheduledIsPrefix(source, replay, happenings + more);
    PulledOnlyGrows(source, replay, happenings, more);
    assert earlier.scheduled == later.scheduled[..earlier.pulled];
  }

  lemma {:induction false} PulledOnlyGrows(source: Source, replay: bool, happenings: seq<Happening>,
                                           more: seq<Happening>)
    ensures After(source, replay, happenings).saved.pulled <= After(source, replay, happenings + more).saved.pulled
  {
    if more == [] {
      assert happenings + more == happenings;
    } else {
      var shorter := more[..|more| - 1];
      assert (happenings + more)[..|happenings + more| - 1] == happenings + shorter;
      PulledOnlyGrows(source, replay, happenings, shorter);
      ScheduledIsPrefix(source, replay, happenings + shorter);
    }
  }
}
