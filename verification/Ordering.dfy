/** Orders and sorting. `Array.prototype.sort` is stable, so its result is the
    one that insertion sort gives. */
module Ordering {
  /** Lexicographic by code unit. Only totality, antisymmetry and transitivity are
      ever used of it, so any collation with those laws would do. */
  predicate StringLeq(a: string, b: string) {
    a == [] || (b != [] && (a[0] < b[0] || (a[0] == b[0] && StringLeq(a[1..], b[1..]))))
  }

  lemma {:induction false} StringLeqTotal(a: string, b: string)
    ensures StringLeq(a, b) || StringLeq(b, a)
  {
    if a != [] && b != [] { StringLeqTotal(a[1..], b[1..]); }
  }

  lemma {:induction false} StringLeqAntisymmetric(a: string, b: string)
    requires StringLeq(a, b) && StringLeq(b, a)
    ensures a == b
  {
    if a != [] && b != [] {
      StringLeqAntisymmetric(a[1..], b[1..]);
      assert a == [a[0]] + a[1..] && b == [b[0]] + b[1..];
    }
  }

  lemma {:induction false} StringLeqTransitive(a: string, b: string, c: string)
    requires StringLeq(a, b) && StringLeq(b, c)
    ensures StringLeq(a, c)
  {
    if a != [] && b != [] && c != [] && a[0] == b[0] == c[0] {
      StringLeqTransitive(a[1..], b[1..], c[1..]);
    }
  }

  ghost predicate TotalPreorder<T(!new)>(leq: (T, T) -> bool) {
    && (forall x, y :: leq(x, y) || leq(y, x))
    && (forall x, y, z :: leq(x, y) && leq(y, z) ==> leq(x, z))
  }

  ghost predicate SortedBy<T>(leq: (T, T) -> bool, s: seq<T>) {
    forall i, j :: 0 <= i < j < |s| ==> leq(s[i], s[j])
  }

  function Insert<T>(leq: (T, T) -> bool, s: seq<T>, x: T): seq<T> {
    if s == [] then [x]
    else if leq(s[|s| - 1], x) then s + [x]
    else Insert(leq, s[..|s| - 1], x) + [s[|s| - 1]]
  }

  function SortBy<T>(leq: (T, T) -> bool, s: seq<T>): seq<T> {
    if s == [] then [] else Insert(leq, SortBy(leq, s[..|s| - 1]), s[|s| - 1])
  }

  lemma {:induction false} InsertPermutes<T(!new)>(leq: (T, T) -> bool, s: seq<T>, x: T)
    ensures multiset(Insert(leq, s, x)) == multiset(s) + multiset{x}
    ensures |Insert(leq, s, x)| == |s| + 1
  {
    if s != [] && !leq(s[|s| - 1], x) {
      InsertPermutes(leq, s[..|s| - 1], x);
      assert s == s[..|s| - 1] + [s[|s| - 1]];
    }
  }

  lemma {:induction false} SortPermutes<T(!new)>(leq: (T, T) -> bool, s: seq<T>)
    ensures multiset(SortBy(leq, s)) == multiset(s) && |SortBy(leq, s)| == |s|
  {
    if s != [] {
      SortPermutes(leq, s[..|s| - 1]);
      InsertPermutes(leq, SortBy(leq, s[..|s| - 1]), s[|s| - 1]);
      assert s == s[..|s| - 1] + [s[|s| - 1]];
    }
  }

  lemma {:induction false} InsertKeepsSorted<T(!new)>(leq: (T, T) -> bool, s: seq<T>, x: T)
    requires TotalPreorder(leq) && SortedBy(leq, s)
    ensures SortedBy(leq, Insert(leq, s, x))
  {
    if s != [] && !leq(s[|s| - 1], x) {
      var front, last := s[..|s| - 1], s[|s| - 1];
      InsertKeepsSorted(leq, front, x);
      InsertPermutes(leq, front, x);
      var r := Insert(leq, front, x);
      forall i | 0 <= i < |r|
        ensures leq(r[i], last)
      {
        assert r[i] in multiset(r);
        assert r[i] in front || r[i] == x;
      }
    }
  }

  lemma {:induction false} SortSorts<T(!new)>(leq: (T, T) -> bool, s: seq<T>)
    requires TotalPreorder(leq)
    ensures SortedBy(leq, SortBy(leq, s))
  {
    if s != [] {
      SortSorts(leq, s[..|s| - 1]);
      InsertKeepsSorted(leq, SortBy(leq, s[..|s| - 1]), s[|s| - 1]);
    }
  }

  /** Sorting what is sorted changes nothing. */
  lemma {:induction false} SortedIsFixed<T(!new)>(leq: (T, T) -> bool, s: seq<T>)
    requires SortedBy(leq, s)
    ensures SortBy(leq, s) == s
  {
    if s != [] {
      SortedIsFixed(leq, s[..|s| - 1]);
      if |s| > 1 { assert leq(s[|s| - 2], s[|s| - 1]); }
      assert s == s[..|s| - 1] + [s[|s| - 1]];
    }
  }

  /** No two different elements of `s` are equivalent. */
  ghost predicate AntisymmetricOn<T(!new)>(leq: (T, T) -> bool, s: seq<T>) {
    forall x, y :: x in s && y in s && leq(x, y) && leq(y, x) ==> x == y
  }

  /** The last element of a sorted arrangement is above every other. */
  lemma SortedLast<T(!new)>(leq: (T, T) -> bool, s: seq<T>, x: T)
    requires SortedBy(leq, s) && x in s
    ensures x == s[|s| - 1] || leq(x, s[|s| - 1])
  {
    var i :| 0 <= i < |s| && s[i] == x;
  }

  lemma SameLast<T(!new)>(leq: (T, T) -> bool, a: seq<T>, b: seq<T>)
    requires a != [] && b != [] && multiset(a) == multiset(b)
    requires SortedBy(leq, a) && SortedBy(leq, b) && AntisymmetricOn(leq, a)
    ensures a[|a| - 1] == b[|b| - 1]
  {
    var x, y := a[|a| - 1], b[|b| - 1];
    assert x in multiset(b) && y in multiset(a);
    SortedLast(leq, b, x);
    SortedLast(leq, a, y);
  }

  /** A sorted arrangement is unique. */
  lemma {:induction false} SortedUnique<T(!new)>(leq: (T, T) -> bool, a: seq<T>, b: seq<T>)
    requires SortedBy(leq, a) && SortedBy(leq, b) && multiset(a) == multiset(b)
    requires AntisymmetricOn(leq, a)
    ensures a == b
    decreases |a|
  {
    assert |a| == |multiset(a)| == |multiset(b)| == |b|;
    if a != [] {
      SameLast(leq, a, b);
      hide *;
      SplitLast(a);
      SplitLast(b);
      FrontAntisymmetric(leq, a[..|a| - 1], a[|a| - 1]);
      FrontSorted(leq, a[..|a| - 1], a[|a| - 1]);
      FrontSorted(leq, b[..|b| - 1], b[|b| - 1]);
      SortedUnique(leq, a[..|a| - 1], b[..|b| - 1]);
    }
  }

  lemma SplitLast<T>(s: seq<T>)
    requires s != []
    ensures s == s[..|s| - 1] + [s[|s| - 1]]
    ensures multiset(s[..|s| - 1]) == multiset(s) - multiset{s[|s| - 1]}
  {
    assert s == s[..|s| - 1] + [s[|s| - 1]];
  }

  lemma FrontAntisymmetric<T(!new)>(leq: (T, T) -> bool, front: seq<T>, last: T)
    requires AntisymmetricOn(leq, front + [last])
    ensures AntisymmetricOn(leq, front)
  {
    forall x | x in front ensures x in front + [last] {}
  }

  lemma FrontSorted<T(!new)>(leq: (T, T) -> bool, front: seq<T>, last: T)
    requires SortedBy(leq, front + [last])
    ensures SortedBy(leq, front)
  {
    forall i, j | 0 <= i < j < |front| ensures leq(front[i], front[j]) {
      assert leq((front + [last])[i], (front + [last])[j]);
    }
  }

  function Filter<T>(p: T -> bool, s: seq<T>): seq<T> {
    if s == [] then [] else Filter(p, s[..|s| - 1]) + if p(s[|s| - 1]) then [s[|s| - 1]] else []
  }

  lemma SplitAt<T>(s: seq<T>, i: nat, j: nat)
    requires i <= j <= |s|
    ensures s[i..] == s[i..j] + s[j..]
    ensures s == s[..i] + s[i..j] + s[j..]
  {
  }

  lemma ConcatAssociative<T>(a: seq<T>, b: seq<T>, c: seq<T>)
    ensures a + b + c == a + (b + c)
  {
  }

  lemma {:induction false} FilterConcat<T(!new)>(p: T -> bool, a: seq<T>, b: seq<T>)
    ensures Filter(p, a + b) == Filter(p, a) + Filter(p, b)
    decreases |b|
  {
    if b == [] {
      assert a + b == a;
    } else {
      assert (a + b)[..|a + b| - 1] == a + b[..|b| - 1];
      FilterConcat(p, a, b[..|b| - 1]);
    }
  }

  lemma {:induction false} FilterSound<T(!new)>(p: T -> bool, s: seq<T>)
    ensures forall x :: x in Filter(p, s) <==> x in s && p(x)
    ensures |Filter(p, s)| <= |s|
  {
    if s != [] {
      FilterSound(p, s[..|s| - 1]);
      assert s == s[..|s| - 1] + [s[|s| - 1]];
    }
  }

  lemma {:induction false} FilterSorted<T(!new)>(leq: (T, T) -> bool, p: T -> bool, s: seq<T>)
    requires SortedBy(leq, s)
    ensures SortedBy(leq, Filter(p, s))
  {
    if s != [] {
      var front, last := s[..|s| - 1], s[|s| - 1];
      FilterSorted(leq, p, front);
      FilterSound(p, front);
      var kept := Filter(p, front);
      forall x | x in kept ensures leq(x, last) {
        assert x in front;
        var j :| 0 <= j < |front| && front[j] == x;
        assert leq(s[j], last);
      }
    }
  }

  lemma {:induction false} FilterNone<T(!new)>(p: T -> bool, s: seq<T>)
    requires forall x :: x in s ==> !p(x)
    ensures Filter(p, s) == []
  {
    if s != [] {
      assert s == s[..|s| - 1] + [s[|s| - 1]];
      FilterNone(p, s[..|s| - 1]);
    }
  }

  lemma {:induction false} FilterAll<T(!new)>(p: T -> bool, s: seq<T>)
    requires forall x :: x in s ==> p(x)
    ensures Filter(p, s) == s
  {
    if s != [] {
      forall x | x in s[..|s| - 1] ensures p(x) { assert x in s; }
      FilterAll(p, s[..|s| - 1]);
      assert s[|s| - 1] in s;
      assert s == s[..|s| - 1] + [s[|s| - 1]];
    }
  }

  function Decimal(n: nat): string {
    if n < 10 then ["0123456789"[n]] else Decimal(n / 10) + ["0123456789"[n % 10]]
  }

  ghost predicate Below(k: string, s: set<string>) {
    forall other :: other in s ==> StringLeq(k, other)
  }

  lemma {:induction false} FindSmallest(s: set<string>) returns (k: string)
    requires s != {}
    ensures k in s && Below(k, s)
    decreases s
  {
    k :| k in s;
    StringLeqTotal(k, k);
    if s != {k} {
      var rest := FindSmallest(s - {k});
      StringLeqTotal(k, rest);
      if StringLeq(k, rest) {
        forall other | other in s - {k} ensures StringLeq(k, other) { StringLeqTransitive(k, rest, other); }
      } else {
        k := rest;
      }
    }
  }

  function Smallest(s: set<string>): (k: string)
    requires s != {}
    ensures k in s && forall other :: other in s ==> StringLeq(k, other)
  {
    assert exists k :: k in s && Below(k, s) by { var k := FindSmallest(s); }
    OneSmallest(s);
    var k :| k in s && forall other :: other in s ==> StringLeq(k, other);
    k
  }

  lemma OneSmallest(s: set<string>)
    ensures forall a, b :: a in s && b in s && Below(a, s) && Below(b, s) ==> a == b
  {
    forall a, b | a in s && b in s && Below(a, s) && Below(b, s) ensures a == b {
      StringLeqAntisymmetric(a, b);
    }
  }

  /** The first `n` keys; all of them when there are no more. */
  function FirstKeys(s: set<string>, n: nat): (r: set<string>)
    ensures r <= s && |r| <= n
    ensures |s| <= n ==> r == s
    decreases n
  {
    if n == 0 || s == {} then {}
    else
      var k := Smallest(s);
      assert s == {k} + (s - {k});
      {k} + FirstKeys(s - {k}, n - 1)
  }

  // --------------------------------------------------- sequences without repeats

  ghost predicate NoRepeats<T(!new)>(s: seq<T>) {
    forall i, j :: 0 <= i < j < |s| ==> s[i] != s[j]
  }

  lemma {:induction false} NoRepeatsCounts<T(!new)>(s: seq<T>)
    ensures NoRepeats(s) <==> forall x :: x in s ==> multiset(s)[x] == 1
  {
    if s != [] {
      var front, last := s[..|s| - 1], s[|s| - 1];
      assert s == front + [last];
      NoRepeatsCounts(front);
      if NoRepeats(s) {
        assert NoRepeats(front) && last !in front;
      } else if forall x :: x in s ==> multiset(s)[x] == 1 {
        assert last in s;
        forall x | x in front ensures multiset(front)[x] == 1 { assert x in s; }
      }
    }
  }

  lemma PermutedNoRepeats<T(!new)>(a: seq<T>, b: seq<T>)
    requires multiset(a) == multiset(b) && NoRepeats(a)
    ensures NoRepeats(b)
  {
    NoRepeatsCounts(a);
    NoRepeatsCounts(b);
    forall x | x in b ensures multiset(b)[x] == 1 { assert x in multiset(b); assert x in a; }
  }

  lemma SameElements<T(!new)>(a: seq<T>, b: seq<T>)
    requires NoRepeats(a) && NoRepeats(b) && forall x :: x in a <==> x in b
    ensures multiset(a) == multiset(b)
  {
    NoRepeatsCounts(a);
    NoRepeatsCounts(b);
    forall x ensures multiset(a)[x] == multiset(b)[x] {
      assert x in multiset(a) <==> x in a;
      assert x in multiset(b) <==> x in b;
    }
  }

  lemma {:induction false} DistinctSize<T(!new)>(s: seq<T>)
    requires NoRepeats(s)
    ensures |set x | x in s| == |s|
  {
    if s != [] {
      var front, last := s[..|s| - 1], s[|s| - 1];
      assert s == front + [last];
      DistinctSize(front);
      assert (set x | x in s) == (set x | x in front) + {last};
    }
  }

  function LastN<T>(s: seq<T>, n: nat): seq<T> {
    if |s| > n then s[|s| - n..] else s
  }

  predicate Above<T(==)>(leq: (T, T) -> bool, x: T, y: T) {
    leq(x, y) && x != y
  }

  /** `part` leaves out of `whole` only what has `n` elements of `part` above it. */
  ghost predicate Covers<T(!new)>(leq: (T, T) -> bool, part: seq<T>, whole: seq<T>, n: nat) {
    && (forall x :: x in part ==> x in whole)
    && forall x :: x in whole && x !in part ==> |set y | y in part && Above(leq, x, y)| >= n
  }

  lemma {:induction false} LastOfPart<T(!new)>(leq: (T, T) -> bool, part: seq<T>, whole: seq<T>, n: nat)
    requires SortedBy(leq, part) && SortedBy(leq, whole) && NoRepeats(part) && NoRepeats(whole)
    requires AntisymmetricOn(leq, whole) && Covers(leq, part, whole, n)
    ensures LastN(part, n) == LastN(whole, n)
    decreases n
  {
    hide *;
    LastNEmpty(part, n);
    LastNEmpty(whole, n);
    if n > 0 {
      CoversEmpty(leq, part, whole, n);
      if whole != [] {
        SharedLast(leq, part, whole, n);
        SplitLast(part);
        SplitLast(whole);
        var last, front, front' := whole[|whole| - 1], part[..|part| - 1], whole[..|whole| - 1];
        CoversFronts(leq, front, front', last, n);
        FrontAntisymmetric(leq, front', last);
        FrontSorted(leq, front, last);
        FrontSorted(leq, front', last);
        FrontNoRepeats(front, last);
        FrontNoRepeats(front', last);
        LastNSnoc(front, last, n);
        LastNSnoc(front', last, n);
        LastOfPart(leq, front, front', n - 1);
      }
    }
  }

  lemma LastNEmpty<T>(s: seq<T>, n: nat)
    ensures n == 0 || s == [] ==> LastN(s, n) == []
  {
  }

  lemma CoversEmpty<T(!new)>(leq: (T, T) -> bool, part: seq<T>, whole: seq<T>, n: nat)
    requires Covers(leq, part, whole, n)
    ensures whole == [] ==> part == []
  {
    assert part != [] ==> part[0] in whole;
  }

  lemma FrontNoRepeats<T(!new)>(front: seq<T>, last: T)
    requires NoRepeats(front + [last])
    ensures NoRepeats(front)
  {
    forall i, j | 0 <= i < j < |front| ensures front[i] != front[j] {
      assert (front + [last])[i] != (front + [last])[j];
    }
  }

  lemma LastNSnoc<T>(front: seq<T>, last: T, n: nat)
    requires n > 0
    ensures LastN(front + [last], n) == LastN(front, n - 1) + [last]
  {
  }

  lemma SharedLast<T(!new)>(leq: (T, T) -> bool, part: seq<T>, whole: seq<T>, n: nat)
    requires n > 0 && whole != []
    requires SortedBy(leq, part) && SortedBy(leq, whole)
    requires AntisymmetricOn(leq, whole) && Covers(leq, part, whole, n)
    ensures part != [] && part[|part| - 1] == whole[|whole| - 1]
  {
    var last := whole[|whole| - 1];
    if last !in part {
      var above := set y | y in part && Above(leq, last, y);
      assert |above| >= n;
      var y :| y in above;
      SortedLast(leq, whole, y);
      assert false;
    }
    SortedLast(leq, part, last);
    assert part[|part| - 1] in part;
    SortedLast(leq, whole, part[|part| - 1]);
  }

  lemma CoversFronts<T(!new)>(leq: (T, T) -> bool, part: seq<T>, whole: seq<T>, last: T, n: nat)
    requires n > 0 && Covers(leq, part + [last], whole + [last], n)
    requires NoRepeats(part + [last])
    requires NoRepeats(whole + [last])
    ensures Covers(leq, part, whole, n - 1)
  {
    forall x | x in part ensures x in whole {
      assert x in part + [last];
      var i :| 0 <= i < |part| && part[i] == x;
      assert (part + [last])[i] != (part + [last])[|part|];
    }
    forall x | x in whole && x !in part ensures |set y | y in part && Above(leq, x, y)| >= n - 1 {
      var i :| 0 <= i < |whole| && whole[i] == x;
      assert (whole + [last])[i] != (whole + [last])[|whole|];
      assert x in whole + [last] && x !in part + [last];
      var before := set y | y in part + [last] && Above(leq, x, y);
      var after := set y | y in part && Above(leq, x, y);
      assert before <= after + {last};
      assert |before| <= |after + {last}| by { SubsetSize(before, after + {last}); }
    }
  }

  lemma {:induction false} SubsetSize<T>(a: set<T>, b: set<T>)
    requires a <= b
    ensures |a| <= |b|
  {
    if a != {} {
      var x :| x in a;
      SubsetSize(a - {x}, b - {x});
    }
  }

  /** `[...new Set(list)]`: first occurrences, in order. */
  function Unique<T(==)>(s: seq<T>): seq<T> {
    if s == [] then []
    else
      var front := Unique(s[..|s| - 1]);
      if s[|s| - 1] in front then front else front + [s[|s| - 1]]
  }

  lemma {:induction false} UniqueKeeps<T(!new)>(s: seq<T>)
    ensures forall x :: x in Unique(s) <==> x in s
    ensures NoRepeats(Unique(s))
    ensures |Unique(s)| <= |s|
  {
    if s != [] {
      UniqueKeeps(s[..|s| - 1]);
      assert s == s[..|s| - 1] + [s[|s| - 1]];
    }
  }

  lemma {:induction false} UniqueFixed<T(!new)>(s: seq<T>)
    requires NoRepeats(s)
    ensures Unique(s) == s
  {
    if s != [] {
      var front, last := s[..|s| - 1], s[|s| - 1];
      assert s == front + [last];
      FrontNoRepeats(front, last);
      UniqueFixed(front);
      forall i | 0 <= i < |front| ensures front[i] != last { assert s[i] != s[|s| - 1]; }
    }
  }
}
