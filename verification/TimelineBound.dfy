/** `boundAssistantTimeline`, over any kind of segment: prose is protected, and
    of everything else only the newest 512 segments stay. */
module TimelineBound {
  import opened Ordering

  const MAX_SEGMENTS := 512

  function Newest<T>(s: seq<T>): seq<T> {
    LastN(s, MAX_SEGMENTS)
  }

  function Not<T>(p: T -> bool): T -> bool {
    x => !p(x)
  }

  function Bound<T>(prose: T -> bool, leq: (T, T) -> bool, timeline: seq<T>): seq<T> {
    if |timeline| <= MAX_SEGMENTS then timeline
    else
      var protected := Filter(prose, timeline);
      var evictable := Newest(Filter(Not(prose), timeline));
      if |protected| + |evictable| == |timeline| then timeline
      else SortBy(leq, protected + evictable)
  }

  // ------------------------------------------------ filters count occurrences

  lemma {:induction false} FilterMultiplicity<T(!new)>(p: T -> bool, s: seq<T>, x: T)
    ensures multiset(Filter(p, s))[x] == if p(x) then multiset(s)[x] else 0
  {
    if s != [] {
      FilterMultiplicity(p, s[..|s| - 1], x);
      assert s == s[..|s| - 1] + [s[|s| - 1]];
    }
  }

  lemma FilterOfPermutation<T(!new)>(p: T -> bool, a: seq<T>, b: seq<T>)
    requires multiset(a) == multiset(b)
    ensures multiset(Filter(p, a)) == multiset(Filter(p, b)) && |Filter(p, a)| == |Filter(p, b)|
  {
    forall x ensures multiset(Filter(p, a))[x] == multiset(Filter(p, b))[x] {
      FilterMultiplicity(p, a, x);
      FilterMultiplicity(p, b, x);
    }
    assert multiset(Filter(p, a)) == multiset(Filter(p, b));
    assert |multiset(Filter(p, a))| == |Filter(p, a)| && |multiset(Filter(p, b))| == |Filter(p, b)|;
  }

  /** What is kept splits back into the protected part and the newest of the rest. */
  lemma KeptParts<T(!new)>(prose: T -> bool, timeline: seq<T>)
    ensures var protected, evictable := Filter(prose, timeline), Newest(Filter(Not(prose), timeline));
            Filter(prose, protected + evictable) == protected
            && Filter(Not(prose), protected + evictable) == evictable
  {
    var protected, evictable := Filter(prose, timeline), Newest(Filter(Not(prose), timeline));
    FilterSound(prose, timeline);
    FilterSound(Not(prose), timeline);
    forall x | x in evictable ensures !prose(x) { assert x in Filter(Not(prose), timeline); }
    FilterAll(prose, protected);
    FilterNone(prose, evictable);
    FilterNone(Not(prose), protected);
    FilterAll(Not(prose), evictable);
    FilterConcat(prose, protected, evictable);
    FilterConcat(Not(prose), protected, evictable);
  }

  /** Prose is never lost, whatever the order on segments. */
  lemma BoundKeepsProse<T(!new)>(prose: T -> bool, leq: (T, T) -> bool, timeline: seq<T>)
    ensures multiset(Filter(prose, Bound(prose, leq, timeline))) == multiset(Filter(prose, timeline))
    ensures |Filter(Not(prose), Bound(prose, leq, timeline))| <= MAX_SEGMENTS
  {
    FilterLengths(prose, timeline);
    SortedParts(prose, leq, timeline);
  }

  lemma SortedParts<T(!new)>(prose: T -> bool, leq: (T, T) -> bool, timeline: seq<T>)
    ensures var protected, evictable := Filter(prose, timeline), Newest(Filter(Not(prose), timeline));
            var sorted := SortBy(leq, protected + evictable);
            multiset(Filter(prose, sorted)) == multiset(protected)
            && |Filter(Not(prose), sorted)| == |evictable| <= MAX_SEGMENTS
  {
    var protected, evictable := Filter(prose, timeline), Newest(Filter(Not(prose), timeline));
    var kept := protected + evictable;
    SortPermutes(leq, kept);
    KeptParts(prose, timeline);
    assert |evictable| <= MAX_SEGMENTS;
    hide *;
    FilterOfPermutation(prose, SortBy(leq, kept), kept);
    FilterOfPermutation(Not(prose), SortBy(leq, kept), kept);
  }

  lemma {:induction false} FilterLengths<T(!new)>(p: T -> bool, s: seq<T>)
    ensures |Filter(p, s)| + |Filter(Not(p), s)| == |s|
  {
    if s != [] { FilterLengths(p, s[..|s| - 1]); }
  }

  /** Bounding twice is bounding once. */
  lemma BoundIdempotent<T(!new)>(prose: T -> bool, leq: (T, T) -> bool, timeline: seq<T>)
    ensures Bound(prose, leq, Bound(prose, leq, timeline)) == Bound(prose, leq, timeline)
  {
    var once := Bound(prose, leq, timeline);
    BoundKeepsProse(prose, leq, timeline);
    FilterLengths(prose, once);
    assert Newest(Filter(Not(prose), once)) == Filter(Not(prose), once);
  }

  // ------------------------------------------------------- in-order timelines

  /** `timeline` without its first `n` evictable segments. */
  ghost function DropOldest<T>(prose: T -> bool, timeline: seq<T>, n: nat): seq<T> {
    if n == 0 || timeline == [] then timeline
    else if prose(timeline[0]) then [timeline[0]] + DropOldest(prose, timeline[1..], n)
    else DropOldest(prose, timeline[1..], n - 1)
  }

  lemma FilterSingle<T(!new)>(p: T -> bool, x: T)
    ensures Filter(p, [x]) == if p(x) then [x] else []
  {
    assert [x][..0] == [];
  }

  lemma FilterPrepend<T(!new)>(p: T -> bool, x: T, s: seq<T>)
    ensures Filter(p, [x] + s) == (if p(x) then [x] else []) + Filter(p, s)
  {
    FilterConcat(p, [x], s);
    FilterSingle(p, x);
  }

  lemma DropMore<T>(x: T, s: seq<T>, n: nat)
    requires 0 < n <= |s| + 1
    ensures ([x] + s)[n..] == s[n - 1..]
  {
  }

  lemma {:induction false} DropOldestParts<T(!new)>(prose: T -> bool, timeline: seq<T>, n: nat)
    requires n <= |Filter(Not(prose), timeline)|
    ensures Filter(prose, DropOldest(prose, timeline, n)) == Filter(prose, timeline)
    ensures Filter(Not(prose), DropOldest(prose, timeline, n)) == Filter(Not(prose), timeline)[n..]
    decreases |timeline|
  {
    if n > 0 && timeline != [] {
      var first, rest := timeline[0], timeline[1..];
      assert timeline == [first] + rest;
      FilterPrepend(prose, first, rest);
      FilterPrepend(Not(prose), first, rest);
      hide Filter;
      if prose(first) {
        DropOldestParts(prose, rest, n);
        FilterPrepend(prose, first, DropOldest(prose, rest, n));
        FilterPrepend(Not(prose), first, DropOldest(prose, rest, n));
      } else {
        DropOldestParts(prose, rest, n - 1);
        DropMore(first, Filter(Not(prose), rest), n);
      }
    }
  }

  lemma {:induction false} DropOldestSubsequence<T(!new)>(prose: T -> bool, leq: (T, T) -> bool, timeline: seq<T>,
                                                          n: nat)
    requires SortedBy(leq, timeline)
    ensures SortedBy(leq, DropOldest(prose, timeline, n))
    ensures forall x :: x in DropOldest(prose, timeline, n) ==> x in timeline
    decreases |timeline|
  {
    if n > 0 && timeline != [] {
      var rest := timeline[1..];
      var m := if prose(timeline[0]) then n else n - 1;
      DropOldestSubsequence(prose, leq, rest, m);
      forall x | x in DropOldest(prose, rest, m) ensures x in timeline && leq(timeline[0], x) {
        assert x in rest;
        var j :| 0 <= j < |rest| && rest[j] == x;
        assert timeline[j + 1] == x;
      }
      if prose(timeline[0]) {
        var kept := [timeline[0]] + DropOldest(prose, rest, m);
        assert forall j :: 0 < j < |kept| ==> kept[j] in DropOldest(prose, rest, m);
      }
    }
  }

  /** On a timeline in order, bounding just drops the oldest tools and statuses. */
  lemma BoundDropsOldest<T(!new)>(prose: T -> bool, leq: (T, T) -> bool, timeline: seq<T>)
    requires TotalPreorder(leq) && SortedBy(leq, timeline) && AntisymmetricOn(leq, timeline)
    ensures var surplus := |Filter(Not(prose), timeline)| - MAX_SEGMENTS;
            Bound(prose, leq, timeline) == DropOldest(prose, timeline, if surplus > 0 then surplus else 0)
  {
    hide Filter, SortBy, SortedBy, TotalPreorder, AntisymmetricOn, Not;
    var evictable := Filter(Not(prose), timeline);
    FilterLengths(prose, timeline);
    if |evictable| > MAX_SEGMENTS {
      SortRejoins(prose, leq, timeline, |evictable| - MAX_SEGMENTS);
      hide DropOldest;
    }
  }

  lemma SortRejoins<T(!new)>(prose: T -> bool, leq: (T, T) -> bool, timeline: seq<T>, n: nat)
    requires TotalPreorder(leq) && SortedBy(leq, timeline) && AntisymmetricOn(leq, timeline)
    requires n <= |Filter(Not(prose), timeline)|
    ensures SortBy(leq, Filter(prose, timeline) + Filter(Not(prose), timeline)[n..]) == DropOldest(prose, timeline, n)
  {
    var dropped := DropOldest(prose, timeline, n);
    DropOldestParts(prose, timeline, n);
    DropOldestSubsequence(prose, leq, timeline, n);
    Rejoined(prose, dropped);
    assert AntisymmetricOn(leq, dropped);
    SortedArrangement(leq, dropped, Filter(prose, dropped) + Filter(Not(prose), dropped));
  }

  lemma SortedArrangement<T(!new)>(leq: (T, T) -> bool, sorted: seq<T>, s: seq<T>)
    requires TotalPreorder(leq) && SortedBy(leq, sorted) && AntisymmetricOn(leq, sorted)
    requires multiset(s) == multiset(sorted)
    ensures SortBy(leq, s) == sorted
  {
    SortPermutes(leq, s);
    SortSorts(leq, s);
    hide *;
    SortedUnique(leq, sorted, SortBy(leq, s));
  }

  lemma Rejoined<T(!new)>(p: T -> bool, s: seq<T>)
    ensures multiset(Filter(p, s) + Filter(Not(p), s)) == multiset(s)
  {
    forall x ensures multiset(Filter(p, s))[x] + multiset(Filter(Not(p), s))[x] == multiset(s)[x] {
      FilterMultiplicity(p, s, x);
      FilterMultiplicity(Not(p), s, x);
    }
    hide Filter;
  }
}
