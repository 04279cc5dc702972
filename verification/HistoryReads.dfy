/** Cached reads of a run's process, conversation-history-read-service.ts. The store, the
    loads and the answers interleave: every method is one uninterrupted step. */
module HistoryReads {
  import opened Json
  import opened Results
  import opened RunEvents
  import opened RunProcessPage
  import opened ByteCache

  /** Identity of a pending read. */
  datatype Key = Key(runId: string, cursor: Cursor, page: Option<Request>, scope: Option<string>)

  datatype Snapshot = Snapshot(runId: string, cursor: Cursor, process: RunProcessView)

  datatype Error = Closed | WrongScope | Busy | NoContentStore | Unreadable(cause: PageError)

  datatype Begun = Refused(error: Error) | Served(process: RunProcessView) | Pending(key: Key, joined: bool)

  /** How events become a process view, the byte length of an item, and of a whole view. */
  datatype Projector = Projector(project: (string, seq<StoredEvent>) -> RunProcessView, size: Json -> nat,
                                 weigh: RunProcessView -> nat)
  {
    function Whole(log: seq<StoredEvent>, runId: string): RunProcessView {
      project(runId, EventsOf(log, runId))
    }

    function Answer(log: seq<StoredEvent>, runId: string, page: Option<Request>): Result<RunProcessView, PageError> {
      Paginate(Whole(log, runId), size, page)
    }
  }

  // ------------------------------------------------------------------ coherence

  /** The view is right for some moment with this cursor: raw, or as answered without a
      page. */
  ghost predicate Shows(p: Projector, log: seq<StoredEvent>, runId: string, raw: bool, cursor: Cursor,
                        process: RunProcessView)
  {
    exists n: nat {:trigger log[..n]} ::
      n <= |log| && cursor == CursorOf(log[..n], runId)
      && if raw then process == p.Whole(log[..n], runId) else p.Answer(log[..n], runId, None) == Ok(process)
  }

  ghost predicate Coherent(p: Projector, log: seq<StoredEvent>, raw: bool, entries: Entries) {
    forall runId :: runId in entries ==> Shows(p, log, runId, raw, entries[runId].cursor, entries[runId].process)
  }

  /** An entry whose cursor is the store's shows the store's events. */
  lemma ShowsCurrent(p: Projector, log: seq<StoredEvent>, runId: string, raw: bool, process: RunProcessView)
    requires Ordered(log) && Shows(p, log, runId, raw, CursorOf(log, runId), process)
    ensures raw ==> process == p.Whole(log, runId)
    ensures !raw ==> p.Answer(log, runId, None) == Ok(process)
  {
    var n: nat :| n <= |log| && CursorOf(log, runId) == CursorOf(log[..n], runId)
                  && if raw then process == p.Whole(log[..n], runId)
                     else p.Answer(log[..n], runId, None) == Ok(process);
    assert log[..|log|] == log;
    CursorIdentifies(log, runId, n, |log|);
    hide Paginate, EventsOf;
  }

  lemma ShowsNow(p: Projector, log: seq<StoredEvent>, runId: string, process: RunProcessView)
    ensures Shows(p, log, runId, true, CursorOf(log, runId), p.Whole(log, runId))
    ensures p.Answer(log, runId, None) == Ok(process) ==> Shows(p, log, runId, false, CursorOf(log, runId), process)
  {
    assert log[..|log|] == log;
    hide Paginate, EventsOf, CursorOf;
  }

  lemma ShowsLater(p: Projector, log: seq<StoredEvent>, e: StoredEvent, runId: string, raw: bool, cursor: Cursor,
                   process: RunProcessView)
    requires Shows(p, log, runId, raw, cursor, process)
    ensures Shows(p, log + [e], runId, raw, cursor, process)
  {
    hide Paginate, EventsOf, CursorOf;
    var n: nat :| n <= |log| && cursor == CursorOf(log[..n], runId)
                  && if raw then process == p.Whole(log[..n], runId)
                     else p.Answer(log[..n], runId, None) == Ok(process);
    assert (log + [e])[..n] == log[..n];
  }

  lemma CoherentLater(p: Projector, log: seq<StoredEvent>, e: StoredEvent, raw: bool, entries: Entries)
    requires Coherent(p, log, raw, entries)
    ensures Coherent(p, log + [e], raw, entries)
  {
    forall runId | runId in entries
      ensures Shows(p, log + [e], runId, raw, entries[runId].cursor, entries[runId].process)
    {
      ShowsLater(p, log, e, runId, raw, entries[runId].cursor, entries[runId].process);
    }
    hide Shows;
  }

  lemma CoherentAfter(p: Projector, log: seq<StoredEvent>, raw: bool, before: Entries, after: Entries, runId: string,
                      entry: Entry)
    requires Coherent(p, log, raw, before) && Shows(p, log, runId, raw, entry.cursor, entry.process)
    requires forall x :: x in after ==> (x in before && after[x] == before[x]) || (x == runId && after[x] == entry)
    ensures Coherent(p, log, raw, after)
  {
    hide Shows;
  }

  /** A cursor the store has had. */
  ghost predicate Past(log: seq<StoredEvent>, runId: string, cursor: Cursor) {
    exists m: nat {:trigger log[..m]} :: m <= |log| && CursorOf(log[..m], runId) == cursor
  }

  /** A loaded snapshot: it was taken at some moment not before the key's cursor. */
  ghost predicate Loaded(p: Projector, log: seq<StoredEvent>, key: Key, s: Snapshot) {
    s.runId == key.runId && exists n: nat {:trigger log[..n]} ::
      n <= |log| && Past(log[..n], key.runId, key.cursor)
      && s.cursor == CursorOf(log[..n], key.runId) && p.Answer(log[..n], key.runId, key.page) == Ok(s.process)
  }

  /** Snapshots stay good while the store grows. */
  lemma LoadedLater(p: Projector, log: seq<StoredEvent>, e: StoredEvent, key: Key, s: Snapshot)
    requires Loaded(p, log, key, s)
    ensures Loaded(p, log + [e], key, s)
  {
    hide Paginate, EventsOf, CursorOf, Past;
    var n: nat :| n <= |log| && Past(log[..n], key.runId, key.cursor)
                  && s.cursor == CursorOf(log[..n], key.runId)
                  && p.Answer(log[..n], key.runId, key.page) == Ok(s.process);
    assert (log + [e])[..n] == log[..n];
  }

  /** An answer shows at least the events that were there when the call began: if the
      cursor of the key was the store's after `began` events, the answer is for a longer
      history. */
  lemma AnswerIsFresh(p: Projector, log: seq<StoredEvent>, key: Key, s: Snapshot, began: nat) returns (n: nat)
    requires Ordered(log) && Loaded(p, log, key, s)
    requires began <= |log| && CursorOf(log[..began], key.runId) == key.cursor
    ensures n <= |log| && EventsOf(log[..began], key.runId) <= EventsOf(log[..n], key.runId)
    ensures p.Answer(log[..n], key.runId, key.page) == Ok(s.process)
  {
    hide Paginate;
    n :| n <= |log| && Past(log[..n], key.runId, key.cursor)
         && s.cursor == CursorOf(log[..n], key.runId) && p.Answer(log[..n], key.runId, key.page) == Ok(s.process);
    if began <= n {
      EventsGrow(log, key.runId, began, n);
    } else {
      var m: nat :| m <= n && CursorOf(log[..n][..m], key.runId) == key.cursor;
      assert log[..n][..m] == log[..m];
      CursorIdentifies(log, key.runId, m, began);
      EventsGrow(log, key.runId, m, n);
    }
  }

  // -------------------------------------------------------------------- the service

  class ConversationHistoryReadService {
    const p: Projector
    const maxPending: int
    const hasContentStore: bool
    /** The cache of the service, and the one of whoever loads snapshots. */
    const runs: Cache
    const snapshots: Cache
    /** The event table. */
    var log: seq<StoredEvent>
    var pending: set<Key>
    var closed: bool

    ghost predicate Valid()
      reads this, runs, snapshots
    {
      && runs != snapshots && runs.Valid() && snapshots.Valid()
      && Ordered(log)
      && Coherent(p, log, false, runs.entries) && Coherent(p, log, true, snapshots.entries)
      && (forall key :: key in pending ==> Past(log, key.runId, key.cursor))
      && (pending != {} ==> |pending| <= maxPending)
      && (closed ==> runs.entries == map[])
    }

    constructor (p: Projector, maxCacheBytes: int, maxCachedRuns: int, maxPending: int, hasContentStore: bool)
      ensures Valid() && fresh(runs) && fresh(snapshots) && log == [] && pending == {} && !closed
    {
      this.p, this.maxPending, this.hasContentStore := p, maxPending, hasContentStore;
      runs := new Cache(maxCacheBytes, maxCachedRuns);
      snapshots := new Cache(16 * 1024 * 1024, 8);
      log, pending, closed := [], {}, false;
    }

    /** The store commits an event. */
    method Commit(e: StoredEvent)
      requires Valid() && Ordered(log + [e])
      modifies `log
      ensures Valid() && log == old(log) + [e]
      ensures forall key, s :: Loaded(p, old(log), key, s) ==> Loaded(p, log, key, s)
    {
      forall key, s | Loaded(p, log, key, s) ensures Loaded(p, log + [e], key, s) {
        LoadedLater(p, log, e, key, s);
      }
      CoherentLater(p, log, e, false, runs.entries);
      CoherentLater(p, log, e, true, snapshots.entries);
      forall key | key in pending ensures Past(log + [e], key.runId, key.cursor) {
        PastLater(log, e, key.runId, key.cursor);
      }
      hide Coherent, Ordered, Past, Loaded;
      log := log + [e];
    }

    /** `getRunProcess`, up to its answer from the cache or its wait. `inScope` is the
        verdict of the content store. */
    method BeginGet(runId: string, page: Option<Request>, scope: Option<string>, inScope: bool) returns (r: Begun)
      requires Valid()
      modifies `pending, runs
      ensures Valid()
      ensures closed ==> r == Refused(Closed)
      ensures r.Served? ==> p.Answer(log, runId, None) == Ok(r.process) && page.None? && pending == old(pending)
      ensures r.Served? ==> runs.entries == old(runs.entries) && runs.order == Without(old(runs.order), runId) + [runId]
      ensures !r.Served? ==> runs.entries == old(runs.entries) && runs.order == old(runs.order)
      ensures r.Pending? ==>
                && r.key == Key(runId, CursorOf(log, runId), page, scope) && (r.joined <==> r.key in old(pending))
                && pending == old(pending) + {r.key}
      ensures r.Refused? ==> pending == old(pending) && (r.error.Closed? || r.error.WrongScope? || r.error.Busy?)
      ensures r == Refused(Busy) ==> |pending| >= maxPending
      ensures r == Refused(WrongScope) ==> scope.Some? && hasContentStore && !inScope
    {
      hide Coherent, Ordered, Shows, Past, EventsOf, Paginate;
      if closed { return Refused(Closed); }
      if scope.Some? && hasContentStore && !inScope { return Refused(WrongScope); }
      var cursor := CursorOf(log, runId);
      if page.None? && (scope.None? || hasContentStore)
         && runId in runs.entries && runs.entries[runId].cursor == cursor {
        var process := ServeCached(runId);
        return Served(process);
      }
      var key := Key(runId, cursor, page, scope);
      if key in pending { return Pending(key, true); }
      if |pending| >= maxPending { return Refused(Busy); }
      PastNow(log, runId);
      pending := pending + {key};
      r := Pending(key, false);
    }

    /** A hit: the entry becomes the most recent one. */
    method ServeCached(runId: string) returns (process: RunProcessView)
      requires Valid() && runId in runs.entries && runs.entries[runId].cursor == CursorOf(log, runId)
      modifies runs
      ensures Valid() && p.Answer(log, runId, None) == Ok(process)
      ensures runs.entries == old(runs.entries) && runs.order == Without(old(runs.order), runId) + [runId]
    {
      ShowsCurrent(p, log, runId, false, runs.entries[runId].process);
      hide Coherent, Ordered, Shows, Past, EventsOf, CursorOf, Paginate;
      runs.Touch(runId);
      process := runs.entries[runId].process;
    }

    /** `loadSnapshot`: it reads the store at one moment, through its own cache. */
    method Load(key: Key, inScope: bool) returns (r: Result<Snapshot, Error>)
      requires Valid() && key in pending
      modifies snapshots
      ensures Valid()
      ensures r.Ok? ==> Loaded(p, log, key, r.value) && r.value.cursor == CursorOf(log, key.runId)
      ensures r.Ok? ==> p.Answer(log, key.runId, key.page) == Ok(r.value.process)
      ensures r.Err? && r.error.Unreadable? ==> p.Answer(log, key.runId, key.page) == Err(r.error.cause)
    {
      if key.scope.Some? && !hasContentStore { return Err(NoContentStore); }
      if key.scope.Some? && !inScope { return Err(WrongScope); }
      var process := Capture(key.runId);
      if closed { return Err(Closed); }
      assert log[..|log|] == log;
      hide Coherent, Ordered, Paginate;
      match Paginate(process, p.size, key.page)
      case Ok(shown) => r := Ok(Snapshot(key.runId, CursorOf(log, key.runId), shown));
      case Err(cause) => r := Err(Unreadable(cause));
    }

    /** The snapshot cache: a stale entry is dropped, a missing one projected anew. */
    method Capture(runId: string) returns (process: RunProcessView)
      requires Valid()
      modifies snapshots
      ensures Valid() && process == p.Whole(log, runId)
    {
      var cursor := CursorOf(log, runId);
      if runId in snapshots.entries && snapshots.entries[runId].cursor == cursor {
        ShowsCurrent(p, log, runId, true, snapshots.entries[runId].process);
        hide *;
        snapshots.Touch(runId);
        return snapshots.entries[runId].process;
      }
      ShowsNow(p, log, runId, p.Whole(log, runId));
      process := p.Whole(log, runId);
      Replace(runId, cursor, process);
    }

    /** A stale entry goes and the new one comes. */
    method Replace(runId: string, cursor: Cursor, process: RunProcessView)
      requires Valid() && Shows(p, log, runId, true, cursor, process)
      modifies snapshots
      ensures Valid()
    {
      hide EventsOf, CursorOf, Ordered, Past, Shows, Total, Without, Evicted, Paginate, Coherent;
      ghost var before := snapshots.entries;
      var bytes := p.weigh(process);
      snapshots.Remove(runId);
      snapshots.Insert(runId, cursor, process, bytes);
      CoherentAfter(p, log, true, before, snapshots.entries, runId, Entry(cursor, process, bytes));
    }

    /** The settled load leaves the pending map. */
    method Settle(key: Key)
      requires Valid()
      modifies `pending
      ensures Valid() && pending == old(pending) - {key}
    {
      hide Coherent, Ordered, Past;
      SmallerSet(pending, key);
      pending := pending - {key};
    }

    /** A waiting call gets its snapshot: while the cursor still is the store's, the view
        goes into the cache. */
    method FinishGet(key: Key, s: Snapshot) returns (r: Result<RunProcessView, Error>)
      requires Valid() && Loaded(p, log, key, s)
      modifies runs
      ensures Valid()
      ensures r == if closed then Err(Closed) else Ok(s.process)
      ensures !closed && key.page.None? && s.cursor == CursorOf(log, key.runId)
              && p.weigh(s.process) <= runs.maxBytes && runs.maxEntries >= 1 ==>
                key.runId in runs.entries && p.Answer(log, key.runId, None) == Ok(runs.entries[key.runId].process)
    {
      if closed { return Err(Closed); }
      if key.page.None? && s.cursor == CursorOf(log, key.runId) {
        LoadedShows(p, log, key, s);
        ShowsCurrent(p, log, key.runId, false, s.process);
        hide Loaded, Shows;
        Keep(key.runId, s.cursor, s.process);
      }
      r := Ok(s.process);
    }

    /** `cache` */
    method Keep(runId: string, cursor: Cursor, process: RunProcessView)
      requires Valid() && !closed && Shows(p, log, runId, false, cursor, process)
      modifies runs
      ensures Valid()
      ensures p.weigh(process) <= runs.maxBytes && runs.maxEntries >= 1 ==>
                runId in runs.entries && runs.entries[runId].process == process
    {
      hide EventsOf, CursorOf, Ordered, Past, Shows, Total, Without, Evicted, Paginate, Coherent;
      ghost var before := runs.entries;
      var bytes := p.weigh(process);
      runs.Insert(runId, cursor, process, bytes);
      CoherentAfter(p, log, false, before, runs.entries, runId, Entry(cursor, process, bytes));
    }

    method Close()
      requires Valid()
      modifies `closed, runs
      ensures Valid() && closed && runs.bytes == 0
    {
      hide Ordered, Past;
      closed := true;
      runs.Clear();
    }
  }

  lemma PastLater(log: seq<StoredEvent>, e: StoredEvent, runId: string, cursor: Cursor)
    requires Past(log, runId, cursor)
    ensures Past(log + [e], runId, cursor)
  {
    var m: nat :| m <= |log| && CursorOf(log[..m], runId) == cursor;
    assert (log + [e])[..m] == log[..m];
  }

  lemma PastNow(log: seq<StoredEvent>, runId: string)
    ensures Past(log, runId, CursorOf(log, runId))
  {
    assert log[..|log|] == log;
  }

  lemma LoadedShows(p: Projector, log: seq<StoredEvent>, key: Key, s: Snapshot)
    requires Loaded(p, log, key, s) && key.page.None?
    ensures Shows(p, log, key.runId, false, s.cursor, s.process)
  {
    hide Paginate, EventsOf, CursorOf, Past;
    var n: nat :| n <= |log| && Past(log[..n], key.runId, key.cursor)
                  && s.cursor == CursorOf(log[..n], key.runId)
                  && p.Answer(log[..n], key.runId, key.page) == Ok(s.process);
  }

  lemma SmallerSet(pending: set<Key>, key: Key)
    ensures |pending - {key}| <= |pending|
  {
    if key in pending { assert pending == (pending - {key}) + {key}; } else { assert pending - {key} == pending; }
  }
}
