/** What the bounded event history holds, by the names and the limit of event-history.ts
    alone. */
module EventHistoryLaw {
  import opened Ordering
  import opened EventHistory

  /** A fragment of a streamed message. */
  predicate Fragment(e: Event) {
    || e.eventType == "message.delta"
    || e.eventType == "message.commentary_delta"
    || e.eventType == "message.reasoning_delta"
  }

  /** Comes first: by sequence, and by id among equals. */
  predicate Before(a: Event, b: Event) {
    a.sequence < b.sequence || (a.sequence == b.sequence && a.id != b.id && StringLeq(a.id, b.id))
  }

  /** The event is what its id was last given as. */
  ghost predicate LastGiven(events: seq<Event>, e: Event) {
    exists i :: 0 <= i < |events| && events[i] == e && forall j :: i < j < |events| ==> events[j].id != e.id
  }

  lemma FragmentsAreEvictable(e: Event)
    ensures Fragment(e) <==> Evictable(e)
    ensures Fragment(e) <==> !Anchor(e)
  {
  }

  lemma {:induction false} LatestIsLastGiven(events: seq<Event>, e: Event)
    ensures e in Latest(events) <==> LastGiven(events, e)
  {
    if events != [] {
      var front, last := events[..|events| - 1], events[|events| - 1];
      LatestIsLastGiven(front, e);
      FilterSound((x: Event) => x.id != last.id, Latest(front));
      GivenMore(front, last, e);
      SplitLast(events);
      hide LastGiven, Filter;
    }
  }

  lemma GivenMore(front: seq<Event>, last: Event, e: Event)
    ensures LastGiven(front + [last], e) <==> e == last || (e.id != last.id && LastGiven(front, e))
  {
    var events := front + [last];
    if LastGiven(events, e) {
      var i :| 0 <= i < |events| && events[i] == e && forall j :: i < j < |events| ==> events[j].id != e.id;
      if i < |front| {
        assert events[|front|] == last;
        forall j | i < j < |front| ensures front[j].id != e.id { assert events[j] == front[j]; }
      }
    }
    if e == last { assert events[|front|] == e; }
    if e.id != last.id && LastGiven(front, e) {
      var i :| 0 <= i < |front| && front[i] == e && forall j :: i < j < |front| ==> front[j].id != e.id;
      assert events[i] == e;
    }
  }

  lemma MergedIsLastGiven(events: seq<Event>)
    ensures forall e :: e in Merged(events) <==> LastGiven(events, e)
    ensures Ordered(Merged(events))
  {
    LatestAgrees(events);
    SortOrders(Latest(events));
    hide Latest, LastGiven, SortBy, Ordered;
    forall e ensures e in Merged(events) <==> LastGiven(events, e) { LatestIsLastGiven(events, e); }
  }

  lemma OrderedBefore(h: seq<Event>)
    requires Ordered(h)
    ensures Rising(h)
  {
    forall i, j | 0 <= i < j < |h| ensures Before(h[i], h[j]) {
      assert BySequenceAndId(h[i], h[j]) && h[i].id != h[j].id;
    }
  }

  /** The history after these events. It holds of every id the event last given, at most once
      and in order. Whatever is no fragment is there. Nothing is left out below 5000; what is
      left out are fragments older than all that are kept, and while a fragment is kept there
      are no more than 5000. */
  ghost predicate HistoryOf(events: seq<Event>, history: seq<Event>) {
    && Rising(history)
    && (forall e :: e in history ==> LastGiven(events, e))
    && KeepsOthers(events, history)
    && LeavesOlder(events, history)
    && (|history| > 5000 ==> forall e :: e in history ==> !Fragment(e))
  }

  ghost predicate Rising(history: seq<Event>) {
    forall i, j :: 0 <= i < j < |history| ==> Before(history[i], history[j])
  }

  ghost predicate KeepsOthers(events: seq<Event>, history: seq<Event>) {
    forall e :: LastGiven(events, e) && !Fragment(e) ==> e in history
  }

  ghost predicate LeavesOlder(events: seq<Event>, history: seq<Event>) {
    forall x :: LastGiven(events, x) && x !in history ==> |history| >= 5000 && Fragment(x) && AllNewer(x, history)
  }

  /** Every fragment kept is newer than `x`. */
  ghost predicate AllNewer(x: Event, history: seq<Event>) {
    forall y :: y in history && Fragment(y) ==> Before(x, y)
  }

  lemma OthersStay(events: seq<Event>)
    ensures KeepsOthers(events, Window(Merged(events)))
  {
    var merged := Merged(events);
    MergedIsLastGiven(events);
    hide LastGiven, Merged, Window, Ordered, Fragment, Anchor;
    forall e | LastGiven(events, e) && !Fragment(e) ensures e in Window(merged) {
      FragmentsAreEvictable(e);
      AnchorStays(merged, e);
    }
  }

  lemma OlderLeave(events: seq<Event>)
    ensures LeavesOlder(events, Window(Merged(events)))
  {
    var merged := Merged(events);
    MergedIsLastGiven(events);
    hide LastGiven, Merged, Window, Ordered, Fragment, AllNewer;
    forall x | LastGiven(events, x) && x !in Window(merged)
      ensures |Window(merged)| >= 5000 && Fragment(x) && AllNewer(x, Window(merged))
    {
      LeftOut(merged, x);
    }
  }

  lemma HistoryByType(events: seq<Event>)
    ensures HistoryOf(events, MergeHistory([], events))
  {
    assert [] + events == events;
    var merged := Merged(events);
    var history := Window(merged);
    MergedIsLastGiven(events);
    WindowKeeps(merged);
    WindowSubset(merged);
    OrderedBefore(history);
    OthersStay(events);
    OlderLeave(events);
    hide LastGiven, Merged, Window, Ordered, Fragment, KeepsOthers, LeavesOlder, Rising, Filter, Room;
    if |history| > 5000 {
      forall e | e in history ensures !Fragment(e) { FullOfAnchors(merged, e); }
    }
  }

  /** The same holds of a history that was merged batch after batch. */
  lemma StreamedByType(batches: seq<seq<Event>>)
    requires Consistent(Flatten(batches))
    ensures HistoryOf(Flatten(batches), Stream(batches))
  {
    hide *;
    StreamingIsOneShot(batches);
    HistoryByType(Flatten(batches));
  }

  // ------------------------------------------------------- no other history

  lemma GivenOnce(events: seq<Event>, x: Event, y: Event)
    requires LastGiven(events, x) && LastGiven(events, y) && x.id == y.id
    ensures x == y
  {
  }

  lemma HistoryOrdered(events: seq<Event>, h: seq<Event>)
    requires HistoryOf(events, h)
    ensures Ordered(h)
  {
    forall i, j | 0 <= i < j < |h| ensures BySequenceAndId(h[i], h[j]) && h[i].id != h[j].id {
      assert h[i] in h && h[j] in h && Before(h[i], h[j]);
      if h[i].id == h[j].id { GivenOnce(events, h[i], h[j]); }
    }
  }

  ghost function Elements(h: seq<Event>): set<Event> {
    set e | e in h
  }

  /** One of two histories holds the other: both keep the newest fragments. */
  lemma Nested(events: seq<Event>, a: seq<Event>, b: seq<Event>, x: Event, y: Event)
    requires HistoryOf(events, a) && HistoryOf(events, b)
    requires x in a && x !in b
    ensures !(y in b && y !in a)
  {
    hide LastGiven, Before;
    if y in b && y !in a {
      assert Fragment(x) && Fragment(y);
      assert Before(x, y) && Before(y, x);
      NotBoth(x, y);
    }
  }

  lemma NotBoth(x: Event, y: Event)
    ensures !(Before(x, y) && Before(y, x))
  {
    if Before(x, y) && Before(y, x) { StringLeqAntisymmetric(x.id, y.id); }
  }

  lemma NoSmaller(events: seq<Event>, a: seq<Event>, b: seq<Event>, x: Event)
    requires HistoryOf(events, a) && HistoryOf(events, b) && Elements(a) <= Elements(b)
    ensures !(x in b && x !in a)
  {
    if x in b && x !in a {
      HistoryOrdered(events, a);
      HistoryOrdered(events, b);
      OneEachHasNoRepeats(a);
      OneEachHasNoRepeats(b);
      hide LastGiven, Before, Ordered, NoRepeats;
      DistinctSize(a);
      DistinctSize(b);
      assert Elements(a) <= Elements(b) - {x};
      SubsetSize(Elements(a), Elements(b) - {x});
    }
  }

  /** These laws leave no choice: the history is determined by the events given. */
  lemma OneHistory(events: seq<Event>, a: seq<Event>, b: seq<Event>)
    requires HistoryOf(events, a) && HistoryOf(events, b)
    ensures a == b
  {
    HistoryOrdered(events, a);
    HistoryOrdered(events, b);
    hide HistoryOf, Ordered;
    forall x, y | x in a && x !in b ensures !(y in b && y !in a) { Nested(events, a, b, x, y); }
    if Elements(a) <= Elements(b) {
      forall x ensures !(x in b && x !in a) { NoSmaller(events, a, b, x); }
    } else {
      var z :| z in a && z !in b;
      assert Elements(b) <= Elements(a);
      forall x ensures !(x in a && x !in b) { NoSmaller(events, b, a, x); }
    }
    forall e ensures e in a <==> e in b {
      assert e in Elements(a) <==> e in a;
      assert e in Elements(b) <==> e in b;
    }
    OrderedUnique(a, b);
  }

  lemma AnchorStays(merged: seq<Event>, e: Event)
    requires Ordered(merged) && e in merged && Anchor(e)
    ensures e in Window(merged)
  {
    WindowKeeps(merged);
    hide Window, Ordered, Anchor;
    FilterSound(Anchor, merged);
    FilterSound(Anchor, Window(merged));
  }

  lemma AboveIsBefore(merged: seq<Event>, x: Event, y: Event)
    requires Ordered(merged) && x in merged && y in merged && Above(BySequenceAndId, x, y)
    ensures Before(x, y)
  {
    var i :| 0 <= i < |merged| && merged[i] == x;
    var j :| 0 <= j < |merged| && merged[j] == y;
    assert x.id != y.id;
  }

  lemma LeftOut(merged: seq<Event>, x: Event)
    requires Ordered(merged) && x in merged && x !in Window(merged)
    ensures |Window(merged)| >= 5000 && Fragment(x) && AllNewer(x, Window(merged))
  {
    EvictedIsOlder(merged, x);
    WindowKeeps(merged);
    WindowSubset(merged);
    FilterSound(Evictable, Window(merged));
    FragmentsAreEvictable(x);
    assert |merged| <= EVENT_HISTORY_LIMIT ==> Window(merged) == merged;
    hide Window, Ordered, Filter, Room, LastN, Evictable, Fragment, Before, Above;
    forall y | y in Window(merged) && Fragment(y) ensures Before(x, y) {
      FragmentsAreEvictable(y);
      assert y in Filter(Evictable, Window(merged));
      AboveIsBefore(merged, x, y);
    }
  }

  lemma FullOfAnchors(merged: seq<Event>, e: Event)
    requires Ordered(merged) && |Window(merged)| > 5000 && e in Window(merged)
    ensures !Fragment(e)
  {
    WindowKeeps(merged);
    AnchorsAndDeltas(Window(merged));
    FilterSound(Evictable, Window(merged));
    FragmentsAreEvictable(e);
    AnchorsAndDeltas(merged);
    hide Window, Ordered, Filter, Evictable, Anchor;
  }
}
