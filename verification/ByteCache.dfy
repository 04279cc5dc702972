/** The byte-accounted, least-recently-used cache that conversation-history-read-service.ts
    and run-process-snapshot-cache.ts both keep. */
module ByteCache {
  import opened Ordering
  import opened RunEvents
  import opened RunProcessPage

  datatype Entry = Entry(cursor: Cursor, process: RunProcessView, bytes: nat)

  type Entries = map<string, Entry>

  ghost predicate Listed(entries: Entries, order: seq<string>) {
    NoRepeats(order) && forall runId :: runId in order <==> runId in entries
  }

  function Total(entries: Entries, order: seq<string>): nat
    requires forall runId :: runId in order ==> runId in entries
  {
    if order == [] then 0 else entries[order[0]].bytes + Total(entries, order[1..])
  }

  function Without(order: seq<string>, runId: string): (r: seq<string>)
    ensures forall x :: x in r <==> x in order && x != runId
  {
    if order == [] then []
    else if order[0] == runId then Without(order[1..], runId)
    else [order[0]] + Without(order[1..], runId)
  }

  lemma {:induction false} WithoutKeeps(order: seq<string>, runId: string)
    ensures NoRepeats(order) ==> NoRepeats(Without(order, runId))
    ensures runId !in order ==> Without(order, runId) == order
    ensures |Without(order, runId)| <= |order|
    ensures runId in order ==> |Without(order, runId)| < |order|
  {
    if order != [] {
      var first, rest := order[0], order[1..];
      WithoutKeeps(rest, runId);
      assert order == [first] + rest;
      if NoRepeats(order) {
        assert first !in rest;
        HeadNoRepeats(first, Without(rest, runId));
      }
    }
  }

  lemma HeadNoRepeats(first: string, rest: seq<string>)
    ensures NoRepeats([first] + rest) <==> first !in rest && NoRepeats(rest)
  {
    var all := [first] + rest;
    assert all[0] == first && all[1..] == rest;
    if NoRepeats(all) {
      forall k | 0 <= k < |rest| ensures rest[k] != first {
        assert all[k + 1] == rest[k];
      }
      forall i, j | 0 <= i < j < |rest| ensures rest[i] != rest[j] {
        assert all[i + 1] == rest[i] && all[j + 1] == rest[j];
      }
    }
  }

  lemma {:induction false} TotalWithout(entries: Entries, order: seq<string>, runId: string)
    requires NoRepeats(order) && forall x :: x in order ==> x in entries
    ensures Total(entries, Without(order, runId)) ==
            Total(entries, order) - if runId in order then entries[runId].bytes else 0
  {
    if order != [] {
      assert order == [order[0]] + order[1..];
      TotalWithout(entries, order[1..], runId);
      if order[0] == runId { WithoutKeeps(order[1..], runId); }
    }
  }

  lemma {:induction false} TotalSame(a: Entries, b: Entries, order: seq<string>)
    requires forall x :: x in order ==> x in a && x in b && a[x] == b[x]
    ensures Total(a, order) == Total(b, order)
  {
    if order != [] { TotalSame(a, b, order[1..]); }
  }

  lemma {:induction false} TotalConcat(entries: Entries, a: seq<string>, b: seq<string>)
    requires forall x :: x in a + b ==> x in entries
    ensures (forall x :: x in a ==> x in entries) && (forall x :: x in b ==> x in entries)
    ensures Total(entries, a + b) == Total(entries, a) + Total(entries, b)
  {
    assert forall x :: x in a ==> x in a + b;
    assert forall x :: x in b ==> x in a + b;
    if a == [] {
      assert a + b == b;
    } else {
      assert (a + b)[1..] == a[1..] + b;
      TotalConcat(entries, a[1..], b);
    }
  }

  class Cache {
    var entries: Entries
    var order: seq<string>
    var bytes: int
    const maxBytes: int
    const maxEntries: int

    /** The byte count is the sum of what is stored, and both limits hold. */
    ghost predicate Valid()
      reads this
    {
      && Listed(entries, order)
      && bytes == Total(entries, order)
      && (order != [] ==> |order| <= maxEntries && bytes <= maxBytes)
    }

    constructor (maxBytes: int, maxEntries: int)
      ensures Valid() && entries == map[] && this.maxBytes == maxBytes && this.maxEntries == maxEntries
    {
      entries, order, bytes := map[], [], 0;
      this.maxBytes, this.maxEntries := maxBytes, maxEntries;
    }

    /** Deleting and setting an entry again makes it the most recent. */
    method Touch(runId: string)
      requires Valid() && runId in entries
      modifies `order
      ensures Valid() && order == Without(old(order), runId) + [runId]
    {
      TotalWithout(entries, order, runId);
      WithoutKeeps(order, runId);
      TotalConcat(entries, Without(order, runId), [runId]);
      order := Without(order, runId) + [runId];
    }

    method Remove(runId: string)
      requires Valid()
      modifies this
      ensures Valid() && entries == old(entries) - {runId} && order == Without(old(order), runId)
    {
      WithoutKeeps(order, runId);
      if runId in entries {
        TotalWithout(entries, order, runId);
        TotalSame(entries, entries - {runId}, Without(order, runId));
        bytes := bytes - entries[runId].bytes;
        entries := entries - {runId};
        order := Without(order, runId);
      }
    }

    method Clear()
      requires Valid()
      modifies this
      ensures Valid() && entries == map[] && order == [] && bytes == 0
    {
      entries, order, bytes := map[], [], 0;
    }

    /** Insertion and eviction: an entry that can be kept becomes the most recent, and the
        oldest go. */
    method Insert(runId: string, cursor: Cursor, process: RunProcessView, size: nat)
      requires Valid()
      modifies this
      ensures Valid()
      ensures size > maxBytes || maxEntries < 1 ==>
                entries == old(entries) - {runId} && order == Without(old(order), runId)
      ensures size <= maxBytes && maxEntries >= 1 ==>
                var all := old(entries)[runId := Entry(cursor, process, size)];
                && (forall x :: x in old(order) ==> x in all)
                && order == Evicted(all, Without(old(order), runId) + [runId], maxBytes, maxEntries)
                && (forall x :: x in entries ==> x in all && entries[x] == all[x])
                && runId in entries
    {
      Remove(runId);
      if size > maxBytes || maxEntries < 1 { return; }
      ghost var all := old(entries)[runId := Entry(cursor, process, size)];
      Append(runId, Entry(cursor, process, size));
      ghost var full := order;
      NewestStays(all, full, maxBytes, maxEntries);
      TotalSame(entries, all, order);
      while |order| > maxEntries || bytes > maxBytes
        invariant Listed(entries, order) && bytes == Total(entries, order)
        invariant Agrees(entries, order, all)
        invariant Evicted(all, order, maxBytes, maxEntries) == Evicted(all, full, maxBytes, maxEntries)
        decreases |order|
      {
        TotalSame(entries, all, order);
        assert order != [];
        EvictOldest();
      }
      TotalSame(entries, all, order);
      assert order == Evicted(all, full, maxBytes, maxEntries);
    }

    method Append(runId: string, entry: Entry)
      requires Listed(entries, order) && bytes == Total(entries, order) && runId !in entries
      modifies this
      ensures Listed(entries, order) && bytes == Total(entries, order)
      ensures entries == old(entries)[runId := entry] && order == old(order) + [runId]
    {
      TotalSame(entries, entries[runId := entry], order);
      TotalConcat(entries[runId := entry], order, [runId]);
      entries, order, bytes := entries[runId := entry], order + [runId], bytes + entry.bytes;
    }

    /** One turn of the eviction loop. */
    method EvictOldest()
      requires Listed(entries, order) && bytes == Total(entries, order) && order != []
      modifies this
      ensures Listed(entries, order) && bytes == Total(entries, order)
      ensures order == old(order)[1..] && entries == old(entries) - {old(order)[0]}
    {
      var oldest := order[0];
      WithoutFirst(entries, order);
      bytes := bytes - entries[oldest].bytes;
      entries := entries - {oldest};
      order := order[1..];
    }
  }

  ghost predicate Agrees(entries: Entries, order: seq<string>, all: Entries) {
    forall x :: x in entries || x in order ==> x in entries && x in all && entries[x] == all[x]
  }

  lemma WithoutFirst(entries: Entries, order: seq<string>)
    requires Listed(entries, order) && order != []
    ensures Listed(entries - {order[0]}, order[1..])
    ensures Total(entries - {order[0]}, order[1..]) == Total(entries, order) - entries[order[0]].bytes
  {
    var first, rest := order[0], order[1..];
    assert order == [first] + rest;
    HeadNoRepeats(first, rest);
    assert forall x :: x in order <==> x == first || x in rest;
    TotalSame(entries, entries - {first}, rest);
  }

  /** What is left when the oldest are given up until both limits hold. */
  function Evicted(all: Entries, order: seq<string>, maxBytes: int, maxEntries: int): seq<string>
    requires forall x :: x in order ==> x in all
  {
    if order == [] || Within(all, order, maxBytes, maxEntries) then order
    else Evicted(all, order[1..], maxBytes, maxEntries)
  }

  predicate Within(all: Entries, order: seq<string>, maxBytes: int, maxEntries: int)
    requires forall x :: x in order ==> x in all
  {
    |order| <= maxEntries && Total(all, order) <= maxBytes
  }

  /** Eviction keeps the longest most recent part that respects the limits. */
  lemma {:induction false} EvictedIs(all: Entries, order: seq<string>, maxBytes: int, maxEntries: int)
    requires forall x :: x in order ==> x in all
    ensures var left := Evicted(all, order, maxBytes, maxEntries);
            && |left| <= |order| && left == order[|order| - |left|..]
            && (left != [] ==> Within(all, left, maxBytes, maxEntries))
            && forall cut :: 0 <= cut < |order| - |left| ==> !Within(all, order[cut..], maxBytes, maxEntries)
  {
    if order != [] && !Within(all, order, maxBytes, maxEntries) {
      var rest := order[1..];
      EvictedIs(all, rest, maxBytes, maxEntries);
      var left := Evicted(all, order, maxBytes, maxEntries);
      forall cut | 0 <= cut < |order| - |left| ensures !Within(all, order[cut..], maxBytes, maxEntries) {
        if cut > 0 { assert order[cut..] == rest[cut - 1..]; } else { assert order[0..] == order; }
      }
    }
  }

  /** The newest entry stays when it could be kept alone. */
  lemma {:induction false} NewestStays(all: Entries, order: seq<string>, maxBytes: int, maxEntries: int)
    requires order != [] && forall x :: x in order ==> x in all
    requires all[order[|order| - 1]].bytes <= maxBytes && maxEntries >= 1
    ensures var left := Evicted(all, order, maxBytes, maxEntries);
            left != [] && left[|left| - 1] == order[|order| - 1]
  {
    if |order| == 1 {
      assert order[1..] == [] && Total(all, []) == 0;
      assert Within(all, order, maxBytes, maxEntries);
    } else {
      NewestStays(all, order[1..], maxBytes, maxEntries);
    }
  }
}
