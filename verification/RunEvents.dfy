/** The event table as the history service sees it: an append-only log with a cursor for
    each run. */
module RunEvents {
  import opened Json
  import opened Ordering

  datatype Cursor = Cursor(sequence: int, eventId: string)

  datatype StoredEvent = StoredEvent(runId: string, cursor: Cursor, payload: Json)

  /** `getRunEventCursor` of a run without events. */
  const ORIGIN := Cursor(0, "")

  predicate Before(a: Cursor, b: Cursor) {
    a.sequence < b.sequence || (a.sequence == b.sequence && a.eventId != b.eventId && StringLeq(a.eventId, b.eventId))
  }

  function EventsOf(log: seq<StoredEvent>, runId: string): seq<StoredEvent> {
    if log == [] then []
    else
      var front := EventsOf(log[..|log| - 1], runId);
      if log[|log| - 1].runId == runId then front + [log[|log| - 1]] else front
  }

  /** The greatest cursor of a run's events: in an ordered log, that of its last event. */
  function CursorOf(log: seq<StoredEvent>, runId: string): Cursor {
    var events := EventsOf(log, runId);
    if events == [] then ORIGIN else events[|events| - 1].cursor
  }

  /** The events of a run are appended in the order of their cursors. */
  ghost predicate Ordered(log: seq<StoredEvent>) {
    && (forall e :: e in log ==> Before(ORIGIN, e.cursor))
    && (forall i, j :: 0 <= i < j < |log| && log[i].runId == log[j].runId ==> Before(log[i].cursor, log[j].cursor))
  }

  lemma {:induction false} EventsFromLog(log: seq<StoredEvent>, runId: string)
    ensures forall e :: e in EventsOf(log, runId) <==> e in log && e.runId == runId
  {
    if log != [] {
      EventsFromLog(log[..|log| - 1], runId);
      SplitLast(log);
    }
  }

  /** `CursorOf` is the greatest cursor of the run. */
  lemma CursorIsGreatest(log: seq<StoredEvent>, runId: string)
    requires Ordered(log)
    ensures forall e :: e in log && e.runId == runId ==>
              e.cursor == CursorOf(log, runId) || Before(e.cursor, CursorOf(log, runId))
    decreases |log|
  {
    if log != [] {
      var front, last := log[..|log| - 1], log[|log| - 1];
      assert log == front + [last];
      OrderedFront(front, last);
      CursorIsGreatest(front, runId);
      var greatest := CursorOf(log, runId);
      assert greatest == if last.runId == runId then last.cursor else CursorOf(front, runId);
      hide *;
      forall e | e in front && e.runId == runId ensures e.cursor == greatest || Before(e.cursor, greatest) {
        if last.runId == runId { LastIsGreatest(front, last, e); }
      }
    }
  }

  lemma OrderedFront(front: seq<StoredEvent>, last: StoredEvent)
    requires Ordered(front + [last])
    ensures Ordered(front)
  {
    hide Before;
    var log := front + [last];
    forall e | e in front ensures Before(ORIGIN, e.cursor) { assert e in log; }
    forall i, j | 0 <= i < j < |front| && front[i].runId == front[j].runId
      ensures Before(front[i].cursor, front[j].cursor)
    {
      assert log[i] == front[i] && log[j] == front[j];
    }
  }

  lemma LastIsGreatest(front: seq<StoredEvent>, last: StoredEvent, e: StoredEvent)
    requires Ordered(front + [last]) && e in front && e.runId == last.runId
    ensures Before(e.cursor, last.cursor)
  {
    hide Before;
    var i :| 0 <= i < |front| && front[i] == e;
    assert (front + [last])[i] == e && (front + [last])[|front|] == last;
  }

  lemma {:induction false} EventsGrow(log: seq<StoredEvent>, runId: string, m: nat, n: nat)
    requires m <= n <= |log|
    ensures EventsOf(log[..m], runId) <= EventsOf(log[..n], runId)
    decreases n
  {
    if m < n {
      EventsGrow(log, runId, m, n - 1);
      assert log[..n][..n - 1] == log[..n - 1];
    }
  }

  /** An unchanged cursor means unchanged events. */
  lemma {:induction false} CursorIdentifies(log: seq<StoredEvent>, runId: string, m: nat, n: nat)
    requires Ordered(log) && m <= n <= |log| && CursorOf(log[..m], runId) == CursorOf(log[..n], runId)
    ensures EventsOf(log[..m], runId) == EventsOf(log[..n], runId)
    decreases n
  {
    if m < n {
      assert log[..n][..n - 1] == log[..n - 1];
      if log[n - 1].runId == runId {
        CursorMoves(log, runId, m, n - 1);
        assert false;
      }
      CursorIdentifies(log, runId, m, n - 1);
    }
  }

  lemma CursorMoves(log: seq<StoredEvent>, runId: string, m: nat, k: nat)
    requires Ordered(log) && m <= k < |log| && log[k].runId == runId
    ensures CursorOf(log[..m], runId) != log[k].cursor
  {
    var events := EventsOf(log[..m], runId);
    EventsFromLog(log[..m], runId);
    assert log[k] in log;
    if events != [] {
      var last := events[|events| - 1];
      assert last in events;
      var i :| 0 <= i < m && log[..m][i] == last;
      assert Before(log[i].cursor, log[k].cursor);
    }
  }
}
