/** The bounded event history of event-history.ts. */
module EventHistory {
  import opened Ordering

  const EVENT_HISTORY_LIMIT := 5000

  datatype Event = Event(id: string, sequence: int, eventType: string)

  predicate Evictable(e: Event) {
    e.eventType in {"message.delta", "message.commentary_delta", "message.reasoning_delta"}
  }

  predicate Anchor(e: Event) {
    !Evictable(e)
  }

  predicate BySequenceAndId(a: Event, b: Event) {
    a.sequence < b.sequence || (a.sequence == b.sequence && StringLeq(a.id, b.id))
  }

  // --------------------------------------------------------------- the policy

  /** The last event given for every id. */
  function LatestById(events: seq<Event>): map<string, Event> {
    if events == [] then map[]
    else LatestById(events[..|events| - 1])[events[|events| - 1].id := events[|events| - 1]]
  }

  /** The window over an ordered history: all anchors, and of the deltas the newest
      that fit. */
  function Window(merged: seq<Event>): seq<Event> {
    if |merged| <= EVENT_HISTORY_LIMIT then merged
    else SortBy(BySequenceAndId, Filter(Anchor, merged) + WithoutOldest(Filter(Evictable, merged), |merged|))
  }

  /** Of the deltas among `total` events, those that stay. */
  function WithoutOldest(evictable: seq<Event>, total: nat): seq<Event>
    requires total > EVENT_HISTORY_LIMIT
  {
    var overflow := total - EVENT_HISTORY_LIMIT;
    evictable[if overflow < |evictable| then overflow else |evictable|..]
  }

  /** The latest event of every id. */
  function Latest(events: seq<Event>): seq<Event> {
    if events == [] then []
    else
      var last := events[|events| - 1];
      Filter((e: Event) => e.id != last.id, Latest(events[..|events| - 1])) + [last]
  }

  function Merged(events: seq<Event>): seq<Event> {
    SortBy(BySequenceAndId, Latest(events))
  }

  /** What `mergeEventHistory` computes. */
  function MergeHistory(current: seq<Event>, incoming: seq<Event>): seq<Event> {
    Window(Merged(current + incoming))
  }

  /** The values of the map in the order in which their ids were first set. */
  function ValuesInOrder(ids: seq<string>, byId: map<string, Event>): seq<Event>
    requires forall i :: 0 <= i < |ids| ==> ids[i] in byId
  {
    seq(|ids|, i requires 0 <= i < |ids| => byId[ids[i]])
  }

  /** The loop that fills the map; `ids` is its insertion order. */
  method CollectById(all: seq<Event>) returns (ids: seq<string>, byId: map<string, Event>)
    ensures byId == LatestById(all)
    ensures (forall k :: k in ids <==> k in byId) && NoRepeats(ids)
  {
    ids, byId := [], map[];
    assert all[..0] == [];
    for i := 0 to |all|
      invariant byId == LatestById(all[..i])
      invariant (forall k :: k in ids <==> k in byId) && NoRepeats(ids)
    {
      assert all[..i + 1][..i] == all[..i];
      if all[i].id !in byId { ids := ids + [all[i].id]; }
      byId := byId[all[i].id := all[i]];
    }
    assert all[..|all|] == all;
  }

  method MergeEventHistory(current: seq<Event>, incoming: seq<Event>) returns (history: seq<Event>)
    ensures history == MergeHistory(current, incoming)
  {
    var ids, byId := CollectById(current + incoming);
    var merged := SortBy(BySequenceAndId, ValuesInOrder(ids, byId));
    SortedValues(current + incoming, ids);
    hide LatestById, Filter, SortBy, NoRepeats, Merged, Evictable, Anchor, BySequenceAndId, ValuesInOrder;
    if |merged| <= EVENT_HISTORY_LIMIT { return merged; }
    var overflow := |merged| - EVENT_HISTORY_LIMIT;
    var evictable := Filter(Evictable, merged);
    var anchors := Filter(Anchor, merged);
    var evicted := if overflow < |evictable| then overflow else |evictable|;
    assert evictable[evicted..] == WithoutOldest(evictable, |merged|);
    history := SortBy(BySequenceAndId, anchors + evictable[evicted..]);
  }

  // ------------------------------------------------------- the merged history

  lemma OrderIsTotal()
    ensures TotalPreorder(BySequenceAndId)
  {
    forall x, y ensures BySequenceAndId(x, y) || BySequenceAndId(y, x) {
      StringLeqTotal(x.id, y.id);
    }
    forall x, y, z | BySequenceAndId(x, y) && BySequenceAndId(y, z) ensures BySequenceAndId(x, z) {
      if x.sequence == y.sequence == z.sequence { StringLeqTransitive(x.id, y.id, z.id); }
    }
  }

  /** No two events share an id. */
  ghost predicate OneEach(s: seq<Event>) {
    forall i, j :: 0 <= i < j < |s| ==> s[i].id != s[j].id
  }

  ghost predicate Ordered(s: seq<Event>) {
    SortedBy(BySequenceAndId, s) && OneEach(s)
  }

  lemma OneEachHasNoRepeats(s: seq<Event>)
    requires OneEach(s)
    ensures NoRepeats(s) && AntisymmetricOn(BySequenceAndId, s)
  {
    forall x, y | x in s && y in s && BySequenceAndId(x, y) && BySequenceAndId(y, x) ensures x == y {
      StringLeqAntisymmetric(x.id, y.id);
      var i :| 0 <= i < |s| && s[i] == x;
      var j :| 0 <= j < |s| && s[j] == y;
    }
  }

  /** An ordered history is determined by the events it contains. */
  lemma OrderedUnique(a: seq<Event>, b: seq<Event>)
    requires Ordered(a) && Ordered(b) && forall e :: e in a <==> e in b
    ensures a == b
  {
    OneEachHasNoRepeats(a);
    OneEachHasNoRepeats(b);
    SameElements(a, b);
    SortedUnique(BySequenceAndId, a, b);
  }

  /** Ordering events with different ids keeps exactly those events. */
  lemma SortOrders(s: seq<Event>)
    requires OneEach(s)
    ensures Ordered(SortBy(BySequenceAndId, s))
    ensures forall e :: e in SortBy(BySequenceAndId, s) <==> e in s
  {
    var r := SortBy(BySequenceAndId, s);
    OrderIsTotal();
    SortSorts(BySequenceAndId, s);
    SortPermutes(BySequenceAndId, s);
    OneEachHasNoRepeats(s);
    PermutedNoRepeats(s, r);
    forall e ensures e in r <==> e in s {
      assert e in r <==> e in multiset(r);
      assert e in s <==> e in multiset(s);
    }
    forall i, j | 0 <= i < j < |r| ensures r[i].id != r[j].id {
      assert r[i] in s && r[j] in s && r[i] != r[j];
      var a :| 0 <= a < |s| && s[a] == r[i];
      var b :| 0 <= b < |s| && s[b] == r[j];
      assert a != b;
    }
  }

  /** `latest` holds one event of each id in `events`, the one `byId` maps it to. */
  ghost predicate OneOfEachId(events: seq<Event>, latest: seq<Event>, byId: map<string, Event>) {
    && OneEach(latest)
    && (forall e :: e in latest <==> e.id in byId && byId[e.id] == e)
    && (forall k :: k in byId ==> byId[k].id == k && byId[k] in events)
    && (forall e :: e in events ==> e.id in byId)
  }

  lemma {:induction false} LatestAgrees(events: seq<Event>)
    ensures OneOfEachId(events, Latest(events), LatestById(events))
  {
    if events != [] {
      var front, last := events[..|events| - 1], events[|events| - 1];
      assert events == front + [last];
      LatestAgrees(front);
      var others := (e: Event) => e.id != last.id;
      FilterSound(others, Latest(front));
      FilteredOneEach(others, Latest(front));
      var kept := Filter(others, Latest(front));
      assert Latest(events) == kept + [last] && LatestById(events) == LatestById(front)[last.id := last];
      assert forall e :: e in kept <==> e in Latest(front) && e.id != last.id;
      hide *;
      OneMore(front, Latest(front), LatestById(front), kept, last);
    }
  }

  lemma OneMore(events: seq<Event>, latest: seq<Event>, byId: map<string, Event>, kept: seq<Event>, last: Event)
    requires OneOfEachId(events, latest, byId) && OneEach(kept)
    requires forall e :: e in kept <==> e in latest && e.id != last.id
    ensures OneOfEachId(events + [last], kept + [last], byId[last.id := last])
  {
    OneEachSnoc(kept, last);
    hide OneEach;
  }

  lemma OneEachSnoc(kept: seq<Event>, last: Event)
    requires OneEach(kept) && forall e :: e in kept ==> e.id != last.id
    ensures OneEach(kept + [last])
  {
    forall i, j | 0 <= i < j < |kept + [last]| ensures (kept + [last])[i].id != (kept + [last])[j].id {
      assert kept[i] in kept;
    }
  }

  lemma {:induction false} FilteredOneEach(p: Event -> bool, s: seq<Event>)
    requires OneEach(s)
    ensures OneEach(Filter(p, s))
  {
    if s != [] {
      var front, last := s[..|s| - 1], s[|s| - 1];
      FilteredOneEach(p, front);
      FilterSound(p, front);
      var kept := Filter(p, front);
      forall i | 0 <= i < |kept| ensures kept[i].id != last.id {
        assert kept[i] in kept;
        var j :| 0 <= j < |front| && front[j] == kept[i];
        assert s[j].id != s[|s| - 1].id;
      }
    }
  }

  lemma MergedFacts(events: seq<Event>)
    ensures Ordered(Merged(events))
    ensures forall e :: e in Merged(events) <==> e.id in LatestById(events) && LatestById(events)[e.id] == e
  {
    LatestAgrees(events);
    SortOrders(Latest(events));
  }

  lemma ValuesOfMap(ids: seq<string>, byId: map<string, Event>)
    requires (forall k :: k in ids <==> k in byId) && NoRepeats(ids) && forall k :: k in byId ==> byId[k].id == k
    ensures OneEach(ValuesInOrder(ids, byId))
    ensures forall e :: e in ValuesInOrder(ids, byId) <==> e.id in byId && byId[e.id] == e
  {
    var values := ValuesInOrder(ids, byId);
    forall e: Event | e.id in byId && byId[e.id] == e ensures e in values {
      assert e.id in ids;
      var i :| 0 <= i < |ids| && ids[i] == e.id;
      assert values[i] == e;
    }
  }

  /** Whatever the order of insertion, sorting the map's values gives the same history. */
  lemma SortedValues(events: seq<Event>, ids: seq<string>)
    requires (forall k :: k in ids <==> k in LatestById(events)) && NoRepeats(ids)
    ensures SortBy(BySequenceAndId, ValuesInOrder(ids, LatestById(events))) == Merged(events)
  {
    var byId := LatestById(events);
    LatestAgrees(events);
    MergedFacts(events);
    assert forall k :: k in byId ==> byId[k].id == k;
    hide *;
    ValuesOfMap(ids, byId);
    SortOrders(ValuesInOrder(ids, byId));
    OrderedUnique(SortBy(BySequenceAndId, ValuesInOrder(ids, byId)), Merged(events));
  }

  // --------------------------------------------------------------- the window

  function Room(merged: seq<Event>): nat {
    var anchors := |Filter(Anchor, merged)|;
    if anchors < EVENT_HISTORY_LIMIT then EVENT_HISTORY_LIMIT - anchors else 0
  }

  lemma {:induction false} AnchorsAndDeltas(s: seq<Event>)
    ensures |Filter(Anchor, s)| + |Filter(Evictable, s)| == |s|
  {
    if s != [] { AnchorsAndDeltas(s[..|s| - 1]); }
  }

  lemma FilterOrdered(p: Event -> bool, s: seq<Event>)
    requires Ordered(s)
    ensures Ordered(Filter(p, s)) && forall e :: e in Filter(p, s) <==> e in s && p(e)
  {
    FilterSorted(BySequenceAndId, p, s);
    FilteredOneEach(p, s);
    FilterSound(p, s);
  }

  lemma LastNOrdered(s: seq<Event>, n: nat)
    requires Ordered(s)
    ensures Ordered(LastN(s, n)) && forall e :: e in LastN(s, n) ==> e in s
  {
    var r := LastN(s, n);
    forall i, j | 0 <= i < j < |r| ensures BySequenceAndId(r[i], r[j]) {
      assert BySequenceAndId(s[i + |s| - |r|], s[j + |s| - |r|]);
    }
  }

  /** Anchors and the kept deltas, before they are put in order again. */
  lemma PartsOneEach(merged: seq<Event>, n: nat)
    requires Ordered(merged)
    ensures OneEach(Filter(Anchor, merged) + LastN(Filter(Evictable, merged), n))
  {
    var a, d := Filter(Anchor, merged), LastN(Filter(Evictable, merged), n);
    FilterOrdered(Anchor, merged);
    FilterOrdered(Evictable, merged);
    LastNOrdered(Filter(Evictable, merged), n);
    forall i, j | 0 <= i < |a| && 0 <= j < |d| ensures a[i].id != d[j].id {
      assert a[i] in merged && d[j] in merged && Anchor(a[i]) && Evictable(d[j]);
      var x :| 0 <= x < |merged| && merged[x] == a[i];
      var y :| 0 <= y < |merged| && merged[y] == d[j];
      assert x != y;
    }
  }

  /** Every anchor stays; of the deltas the newest that fit beside them stay. */
  lemma WindowKeeps(merged: seq<Event>)
    requires Ordered(merged)
    ensures Ordered(Window(merged))
    ensures Filter(Anchor, Window(merged)) == Filter(Anchor, merged)
    ensures Filter(Evictable, Window(merged)) == LastN(Filter(Evictable, merged), Room(merged))
    ensures |Window(merged)| == if |merged| <= EVENT_HISTORY_LIMIT then |merged|
                                else if |Filter(Anchor, merged)| > EVENT_HISTORY_LIMIT then |Filter(Anchor, merged)|
                                else EVENT_HISTORY_LIMIT
  {
    var a, d := Filter(Anchor, merged), LastN(Filter(Evictable, merged), Room(merged));
    AnchorsAndDeltas(merged);
    if |merged| > EVENT_HISTORY_LIMIT {
      WindowIsSorted(merged);
      RejoinedParts(merged, Room(merged));
      hide *;
      assert |Window(merged)| == |a| + |d|;
      RoomFills(merged);
    }
  }

  /** The eviction arithmetic: the number evicted leaves exactly the room. */
  lemma WindowIsSorted(merged: seq<Event>)
    requires |merged| > EVENT_HISTORY_LIMIT
    ensures Window(merged)
         == SortBy(BySequenceAndId, Filter(Anchor, merged) + LastN(Filter(Evictable, merged), Room(merged)))
  {
    hide Filter, SortBy, LastN, Evictable, Anchor, BySequenceAndId, WithoutOldest;
    AnchorsAndDeltas(merged);
    EvictionLeavesRoom(Filter(Evictable, merged), |Filter(Anchor, merged)|, |merged|);
  }

  lemma EvictionLeavesRoom(deltas: seq<Event>, anchors: nat, total: nat)
    requires |deltas| + anchors == total && total > EVENT_HISTORY_LIMIT
    ensures var room := if anchors < EVENT_HISTORY_LIMIT then EVENT_HISTORY_LIMIT - anchors else 0;
            WithoutOldest(deltas, total) == LastN(deltas, room)
  {
  }

  lemma RoomFills(merged: seq<Event>)
    requires |merged| > EVENT_HISTORY_LIMIT
    ensures var a := |Filter(Anchor, merged)|;
            a + |LastN(Filter(Evictable, merged), Room(merged))|
            == if a > EVENT_HISTORY_LIMIT then a else EVENT_HISTORY_LIMIT
  {
    AnchorsAndDeltas(merged);
    hide Filter;
  }

  /** Anchors and the newest `n` deltas, put in order, split into the same parts. */
  lemma RejoinedParts(merged: seq<Event>, n: nat)
    requires Ordered(merged)
    ensures var a, d := Filter(Anchor, merged), LastN(Filter(Evictable, merged), n);
            var w := SortBy(BySequenceAndId, a + d);
            Ordered(w) && |w| == |a| + |d| && Filter(Anchor, w) == a && Filter(Evictable, w) == d
  {
    var a, d := Filter(Anchor, merged), LastN(Filter(Evictable, merged), n);
    var w := SortBy(BySequenceAndId, a + d);
    PartsOneEach(merged, n);
    SortOrders(a + d);
    SortPermutes(BySequenceAndId, a + d);
    FilterOrdered(Anchor, merged);
    FilterOrdered(Evictable, merged);
    LastNOrdered(Filter(Evictable, merged), n);
    FilterOrdered(Anchor, w);
    FilterOrdered(Evictable, w);
    hide Filter, SortBy, Ordered, OneEach, LastN;
    forall e ensures (e in Filter(Anchor, w) <==> e in a) && (e in Filter(Evictable, w) <==> e in d) {
      assert e in a + d <==> e in a || e in d;
    }
    OrderedUnique(Filter(Anchor, w), a);
    OrderedUnique(Filter(Evictable, w), d);
  }

  // ---------------------------------------------------------------- streaming

  /** Equal ids mean equal events. */
  ghost predicate Consistent(events: seq<Event>) {
    forall x, y :: x in events && y in events && x.id == y.id ==> x == y
  }

  lemma ConsistentMerge(events: seq<Event>)
    requires Consistent(events)
    ensures Ordered(Merged(events)) && forall e :: e in Merged(events) <==> e in events
  {
    MergedFacts(events);
    LatestAgrees(events);
  }

  /** The events of a window are among those it was made from. */
  lemma WindowSubset(merged: seq<Event>)
    requires Ordered(merged)
    ensures forall e :: e in Window(merged) ==> e in merged
  {
    WindowKeeps(merged);
    FilterSound(Anchor, merged);
    FilterSound(Evictable, merged);
    FilterSound(Anchor, Window(merged));
    FilterSound(Evictable, Window(merged));
    forall e | e in Window(merged) ensures e in merged {
      if Anchor(e) {
        assert e in Filter(Anchor, Window(merged));
      } else {
        assert e in Filter(Evictable, Window(merged));
        assert e in LastN(Filter(Evictable, merged), Room(merged));
      }
    }
  }

  /** An event left out of a window is a delta, and everything the window has room
      for is newer. */
  lemma EvictedIsOlder(merged: seq<Event>, x: Event)
    requires Ordered(merged) && x in merged && x !in Window(merged)
    ensures Evictable(x) && |Filter(Evictable, merged)| > Room(merged)
    ensures forall y :: y in LastN(Filter(Evictable, merged), Room(merged)) ==>
              y in Window(merged) && Above(BySequenceAndId, x, y)
  {
    var d, kept := Filter(Evictable, merged), LastN(Filter(Evictable, merged), Room(merged));
    WindowKeeps(merged);
    FilterOrdered(Evictable, merged);
    FilterSound(Anchor, merged);
    FilterSound(Anchor, Window(merged));
    FilterSound(Evictable, Window(merged));
    hide Filter, Window, Ordered, LastN, Room;
    assert Anchor(x) ==> x in Filter(Anchor, merged);
    assert Evictable(x) ==> x in d && x !in kept;
    TailIsAbove(d, Room(merged), x);
  }

  lemma TailIsAbove(d: seq<Event>, n: nat, x: Event)
    requires Ordered(d) && x in d && x !in LastN(d, n)
    ensures |d| > n && forall y :: y in LastN(d, n) ==> Above(BySequenceAndId, x, y)
  {
    var kept := LastN(d, n);
    var i :| 0 <= i < |d| && d[i] == x;
    var cut := |d| - |kept|;
    forall k | cut <= k < |d| ensures d[k] != x {
      assert kept[k - cut] in kept && kept[k - cut] == d[k];
    }
    forall y | y in kept ensures Above(BySequenceAndId, x, y) {
      var j :| 0 <= j < |kept| && kept[j] == y;
      assert d[cut + j] == y && BySequenceAndId(d[i], d[cut + j]) && d[i].id != d[cut + j].id;
    }
  }

  /** Evicting early never changes what a later merge keeps. */
  lemma MergeTwice(first: seq<Event>, second: seq<Event>)
    requires Consistent(first + second)
    ensures MergeHistory(MergeHistory([], first), second) == MergeHistory([], first + second)
  {
    hide LatestById, Filter, SortBy, Merged, Latest, Window, OneEach, SortedBy;
    assert [] + first == first && [] + (first + second) == first + second;
    var once := Merged(first);
    var h := Window(once);
    assert forall e :: e in first ==> e in first + second;
    ConsistentMerge(first);
    WindowSubset(once);
    var u, v := Merged(h + second), Merged(first + second);
    assert Consistent(h + second);
    ConsistentMerge(h + second);
    ConsistentMerge(first + second);
    hide Ordered, Consistent;
    SameAnchors(once, h, second, u, v);
    SameKeptDeltas(once, h, second, u, v);
    hide *;
    SameWindow(u, v);
  }

  lemma SameAnchors(once: seq<Event>, h: seq<Event>, second: seq<Event>, u: seq<Event>, v: seq<Event>)
    requires Ordered(once) && h == Window(once) && Ordered(u) && Ordered(v)
    requires forall e :: e in u <==> e in h || e in second
    requires forall e :: e in v <==> e in once || e in second
    ensures Filter(Anchor, u) == Filter(Anchor, v)
  {
    WindowKeeps(once);
    FilterSound(Anchor, once);
    FilterSound(Anchor, h);
    FilterOrdered(Anchor, u);
    FilterOrdered(Anchor, v);
    WindowSubset(once);
    forall e ensures e in Filter(Anchor, u) <==> e in Filter(Anchor, v) {
      assert e in Filter(Anchor, once) <==> e in Filter(Anchor, h);
    }
    OrderedUnique(Filter(Anchor, u), Filter(Anchor, v));
  }

  lemma SameKeptDeltas(once: seq<Event>, h: seq<Event>, second: seq<Event>, u: seq<Event>, v: seq<Event>)
    requires Ordered(once) && h == Window(once) && Ordered(u) && Ordered(v)
    requires forall e :: e in u <==> e in h || e in second
    requires forall e :: e in v <==> e in once || e in second
    requires Filter(Anchor, u) == Filter(Anchor, v)
    ensures LastN(Filter(Evictable, u), Room(v)) == LastN(Filter(Evictable, v), Room(v))
  {
    var du, dv, n := Filter(Evictable, u), Filter(Evictable, v), Room(v);
    FilterOrdered(Evictable, u);
    FilterOrdered(Evictable, v);
    OneEachHasNoRepeats(du);
    OneEachHasNoRepeats(dv);
    WindowSubset(once);
    RoomShrinks(once, v);
    forall x | x in dv && x !in du ensures |set y | y in du && Above(BySequenceAndId, x, y)| >= n {
      NewerDeltas(once, h, du, x);
    }
    LastOfPart(BySequenceAndId, du, dv, n);
  }

  /** More events, more anchors, less room for deltas. */
  lemma RoomShrinks(once: seq<Event>, v: seq<Event>)
    requires Ordered(once) && Ordered(v) && forall e :: e in once ==> e in v
    ensures Room(v) <= Room(once)
  {
    var a, b := Filter(Anchor, once), Filter(Anchor, v);
    FilterOrdered(Anchor, once);
    FilterOrdered(Anchor, v);
    OneEachHasNoRepeats(a);
    OneEachHasNoRepeats(b);
    DistinctSize(a);
    DistinctSize(b);
    SubsetSize(set e | e in a, set e | e in b);
  }

  lemma NewerDeltas(once: seq<Event>, h: seq<Event>, du: seq<Event>, x: Event)
    requires Ordered(once) && h == Window(once) && x in once && x !in h
    requires forall e :: e in h && Evictable(e) ==> e in du
    ensures |set y | y in du && Above(BySequenceAndId, x, y)| >= Room(once)
  {
    var d, kept := Filter(Evictable, once), LastN(Filter(Evictable, once), Room(once));
    EvictedIsOlder(once, x);
    FilterOrdered(Evictable, once);
    LastNOrdered(d, Room(once));
    OneEachHasNoRepeats(kept);
    DistinctSize(kept);
    assert forall y :: y in kept ==> y in d;
    SubsetSize(set y | y in kept, set y | y in du && Above(BySequenceAndId, x, y));
  }

  lemma SameWindow(u: seq<Event>, v: seq<Event>)
    requires Ordered(u) && Ordered(v)
    requires Filter(Anchor, u) == Filter(Anchor, v)
    requires LastN(Filter(Evictable, u), Room(v)) == LastN(Filter(Evictable, v), Room(v))
    ensures Window(u) == Window(v)
  {
    WindowKeeps(u);
    WindowKeeps(v);
    FilterSound(Anchor, Window(u));
    FilterSound(Anchor, Window(v));
    FilterSound(Evictable, Window(u));
    FilterSound(Evictable, Window(v));
    hide Window, Filter;
    forall e ensures e in Window(u) <==> e in Window(v) {
      assert Anchor(e) || Evictable(e);
    }
    OrderedUnique(Window(u), Window(v));
  }

  // ------------------------------------------------------------- many batches

  function Stream(batches: seq<seq<Event>>): seq<Event> {
    if batches == [] then []
    else MergeHistory(Stream(batches[..|batches| - 1]), batches[|batches| - 1])
  }

  function Flatten(batches: seq<seq<Event>>): seq<Event> {
    if batches == [] then [] else Flatten(batches[..|batches| - 1]) + batches[|batches| - 1]
  }

  /** Merging batch after batch gives the history of merging everything at once. */
  lemma {:induction false} StreamingIsOneShot(batches: seq<seq<Event>>)
    requires Consistent(Flatten(batches))
    ensures Stream(batches) == MergeHistory([], Flatten(batches))
  {
    if batches != [] {
      var front, last := batches[..|batches| - 1], batches[|batches| - 1];
      assert forall e :: e in Flatten(front) ==> e in Flatten(batches);
      StreamingIsOneShot(front);
      MergeTwice(Flatten(front), last);
    }
  }

  /** What such a history contains. */
  lemma HistoryPolicy(events: seq<Event>)
    requires Consistent(events)
    ensures var history := MergeHistory([], events);
            && Ordered(history)
            && (forall e :: e in history ==> e in events)
            && (forall e :: e in events && !Evictable(e) ==> e in history)
            && Filter(Evictable, history) == LastN(Filter(Evictable, Merged(events)), Room(Merged(events)))
  {
    assert [] + events == events;
    ConsistentMerge(events);
    WindowKeeps(Merged(events));
    WindowSubset(Merged(events));
    FilterSound(Anchor, Merged(events));
    FilterSound(Anchor, Window(Merged(events)));
    forall e | e in events && !Evictable(e) ensures e in Window(Merged(events)) {
      assert e in Filter(Anchor, Merged(events));
    }
  }
}
