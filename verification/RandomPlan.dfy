/** The seeded day plans of task-scheduler.ts. */
module RandomPlan {
  import opened Results
  import opened Ordering
  import opened TaskScheduler

  const TWO_32 := 4294967296

  /** The output function of mulberry32; a draw is this number over 2^32. */
  function Mix(state: bv32): bv32 {
    var a := (state ^ (state >> 15)) * (state | 1);
    var b := a ^ (a + (a ^ (a >> 7)) * (a | 61));
    b ^ (b >> 14)
  }

  function Numerator(state: bv32): (n: nat)
    ensures n < TWO_32
  {
    Mix(state) as nat
  }

  const STEP: bv32 := 0x6d2b79f5

  function StateAfter(seed: bv32, draws: nat): bv32 {
    if draws == 0 then seed else StateAfter(seed, draws - 1) + STEP
  }

  /** The `k`-th draw, counted from 1. */
  function Draw(seed: bv32, k: nat): (n: nat)
    ensures n < TWO_32
  {
    Numerator(StateAfter(seed, k))
  }

  /** The first draws of some seeds. */
  lemma KnownDraws()
    ensures Draw(0, 1) == 1144304738 && Draw(0, 2) == 1416247
    ensures Draw(1, 1) == 2693262067 && Draw(42, 1) == 2581720956
  {
    assert StateAfter(0, 1) == 0x6d2b79f5 && StateAfter(0, 2) == 0xda56f3ea;
    assert StateAfter(1, 1) == 0x6d2b79f6 && StateAfter(42, 1) == 0x6d2b7a1f;
  }

  class SeededRandom {
    var state: bv32
    ghost const seed: bv32
    ghost var drawn: nat

    ghost predicate Valid()
      reads this
    {
      state == StateAfter(seed, drawn)
    }

    constructor (seed: bv32)
      ensures Valid() && this.seed == seed && drawn == 0
    {
      this.seed, state, drawn := seed, seed, 0;
    }

    method Next() returns (n: nat)
      requires Valid()
      modifies this
      ensures Valid() && drawn == old(drawn) + 1 && n == Draw(seed, drawn) && n < TWO_32
    {
      hide Mix, Numerator;
      state := state + STEP;
      drawn := drawn + 1;
      n := Numerator(state);
    }
  }

  /** `Math.floor(rng() * m)` */
  function Scaled(n: nat, m: int): int {
    n * m / TWO_32
  }

  lemma ScaledRange(n: nat, m: int)
    requires n < TWO_32 && m >= 1
    ensures 0 <= Scaled(n, m) < m
  {
    var t := n * m;
    ProductBelow(n, m, TWO_32);
    assert 0 <= t < TWO_32 * m;
  }

  lemma ProductBelow(n: nat, m: int, bound: nat)
    requires n < bound && m >= 1
    ensures 0 <= n * m < bound * m
  {
    assert bound * m == n * m + (bound - n) * m;
  }

  // -------------------------------------------------------------------- plans

  datatype RandomRule = RandomRule(minTimes: int, maxTimes: int, start: MinuteOfDay, end: MinuteOfDay)

  const MIN_SPAN := 15 * MINUTE

  function Times(rule: RandomRule, seed: bv32): int {
    if rule.minTimes == rule.maxTimes then rule.minTimes
    else rule.minTimes + Scaled(Draw(seed, 1), rule.maxTimes - rule.minTimes + 1)
  }

  /** Draws used up before the points. */
  function Spent(rule: RandomRule): nat {
    if rule.minTimes == rule.maxTimes then 0 else 1
  }

  /** Start of the `i`-th of `n` sub-windows. */
  function Segment(start: int, span: nat, n: nat, i: nat): int
    requires n > 0
  {
    start + span * i / n
  }

  function Width(start: int, span: nat, n: nat, i: nat): int
    requires n > 0
  {
    var width := Segment(start, span, n, i + 1) - Segment(start, span, n, i);
    if width > 1 then width else 1
  }

  function PlanPoint(seed: bv32, spent: nat, start: int, span: nat, n: nat, i: nat): int
    requires n > 0
  {
    Segment(start, span, n, i) + Scaled(Draw(seed, spent + i + 1), Width(start, span, n, i))
  }

  function RawPoints(seed: bv32, spent: nat, start: int, span: nat, n: nat): seq<int> {
    seq(n, i requires 0 <= i < n => PlanPoint(seed, spent, start, span, n, i))
  }

  predicate Ascending(a: int, b: int) {
    a <= b
  }

  function DayStart(zone: Offset, rule: RandomRule, date: int): int {
    MidnightUtc(zone, date) + rule.start * MINUTE
  }

  function Span(rule: RandomRule): int {
    (rule.end - rule.start) * MINUTE
  }

  function Plan(zone: Offset, rule: RandomRule, seed: bv32, date: int): seq<int> {
    if Span(rule) < MIN_SPAN || Times(rule, seed) <= 0 then []
    else
      SortBy(Ascending, Unique(RawPoints(seed, Spent(rule), DayStart(zone, rule, date), Span(rule), Times(rule, seed))))
  }

  method RandomPlanForDate(zone: Offset, rule: RandomRule, seed: bv32, date: int) returns (plan: seq<int>)
    ensures plan == Plan(zone, rule, seed, date)
  {
    hide Mix, Numerator, StateAfter, Unique, SortBy, RawPoints;
    var rng := new SeededRandom(seed);
    var midnight := LocalMidnightUtc(zone, date);
    var start := midnight + rule.start * MINUTE;
    var end := midnight + rule.end * MINUTE;
    if end - start < MIN_SPAN { return []; }
    var span := end - start;
    var n := rule.minTimes;
    if rule.minTimes != rule.maxTimes {
      var draw := rng.Next();
      n := rule.minTimes + Scaled(draw, rule.maxTimes - rule.minTimes + 1);
    }
    var points := DrawPoints(rng, start, span, n);
    if n <= 0 { NoPoints(); }
    plan := SortBy(Ascending, Unique(points));
  }

  lemma NoPoints()
    ensures SortBy(Ascending, Unique([])) == []
  {
  }

  /** The loop over the sub-windows. */
  method DrawPoints(rng: SeededRandom, start: int, span: nat, n: int) returns (points: seq<int>)
    requires rng.Valid()
    modifies rng
    ensures n <= 0 ==> points == []
    ensures n > 0 ==> points == RawPoints(rng.seed, old(rng.drawn), start, span, n)
  {
    hide Draw, Mix, Numerator, Segment, Width, Scaled, StateAfter;
    points := [];
    var i := 0;
    while i < n
      invariant 0 <= i && (if n > 0 then i <= n else i == 0) && |points| == i
      invariant rng.Valid() && rng.drawn == old(rng.drawn) + i
      invariant n > 0 ==> forall k :: 0 <= k < i ==> points[k] == PlanPoint(rng.seed, old(rng.drawn), start, span, n, k)
    {
      var segStart := Segment(start, span, n, i);
      var draw := rng.Next();
      points := points + [segStart + Scaled(draw, Width(start, span, n, i))];
      i := i + 1;
    }
  }

  // --------------------------------------------------------------- what a plan is

  lemma SegmentsGrow(start: int, span: nat, n: nat, i: nat)
    requires 0 < n <= span
    ensures Segment(start, span, n, i) < Segment(start, span, n, i + 1)
  {
    assert span * (i + 1) == span * i + span;
    QuotientStep(span * i, span * i + span, n);
  }

  lemma QuotientStep(a: nat, b: nat, n: nat)
    requires n > 0 && a + n <= b
    ensures a / n + 1 <= b / n
  {
    DivisionBound(a, n, a / n);
    assert (a / n + 1) * n == a / n * n + n;
    DivisionBound(b, n, a / n + 1);
  }

  lemma SegmentEnds(start: int, span: nat, n: nat)
    requires n > 0
    ensures Segment(start, span, n, 0) == start && Segment(start, span, n, n) == start + span
  {
    DivisionBound(span * n, n, span);
    DivisionBound(span * n, n, span + 1);
    assert (span + 1) * n == span * n + n;
    DivisionBound(0, n, 0);
    DivisionBound(0, n, 1);
  }

  lemma PointInSegment(seed: bv32, spent: nat, start: int, span: nat, n: nat, i: nat)
    requires 0 < n <= span
    ensures Segment(start, span, n, i) <= PlanPoint(seed, spent, start, span, n, i) < Segment(start, span, n, i + 1)
  {
    SegmentsGrow(start, span, n, i);
    ScaledRange(Draw(seed, spent + i + 1), Width(start, span, n, i));
  }

  lemma {:induction false} SegmentsOrdered(start: int, span: nat, n: nat, i: nat, j: nat)
    requires 0 < n <= span && i <= j
    ensures Segment(start, span, n, i) <= Segment(start, span, n, j)
    decreases j
  {
    if i < j {
      SegmentsGrow(start, span, n, j - 1);
      SegmentsOrdered(start, span, n, i, j - 1);
    }
  }

  lemma TimesInRange(rule: RandomRule, seed: bv32)
    requires rule.minTimes <= rule.maxTimes
    ensures rule.minTimes <= Times(rule, seed) <= rule.maxTimes
  {
    if rule.minTimes < rule.maxTimes { ScaledRange(Draw(seed, 1), rule.maxTimes - rule.minTimes + 1); }
  }

  /** A plan over a long enough window: one point in each of its sub-windows, so that
      removing repeats and sorting have nothing to do. */
  lemma PlanShape(zone: Offset, rule: RandomRule, seed: bv32, date: int)
    requires 1 <= rule.minTimes <= rule.maxTimes && Span(rule) >= MIN_SPAN && Span(rule) >= Times(rule, seed)
    ensures var n, start, plan := Times(rule, seed), DayStart(zone, rule, date), Plan(zone, rule, seed, date);
            && rule.minTimes <= n <= rule.maxTimes && |plan| == n
            && plan == RawPoints(seed, Spent(rule), start, Span(rule), n)
            && (forall i :: 0 <= i < n ==>
                  Segment(start, Span(rule), n, i) <= plan[i] < Segment(start, Span(rule), n, i + 1))
            && (forall i, j :: 0 <= i < j < n ==> plan[i] < plan[j])
            && (forall i :: 0 <= i < n ==> start <= plan[i] < start + Span(rule))
  {
    TimesInRange(rule, seed);
    var n, start, span := Times(rule, seed), DayStart(zone, rule, date), Span(rule);
    var raw := RawPoints(seed, Spent(rule), start, span, n);
    RawAscending(seed, Spent(rule), start, span, n);
    assert NoRepeats(raw);
    UniqueFixed(raw);
    assert SortedBy(Ascending, raw);
    SortedIsFixed(Ascending, raw);
  }

  lemma RawAscending(seed: bv32, spent: nat, start: int, span: nat, n: nat)
    requires 0 < n <= span
    ensures var raw := RawPoints(seed, spent, start, span, n);
            && (forall i :: 0 <= i < n ==> Segment(start, span, n, i) <= raw[i] < Segment(start, span, n, i + 1))
            && (forall i, j :: 0 <= i < j < n ==> raw[i] < raw[j])
            && (forall i :: 0 <= i < n ==> start <= raw[i] < start + span)
  {
    hide Segment, PlanPoint;
    var raw := RawPoints(seed, spent, start, span, n);
    SegmentEnds(start, span, n);
    forall i | 0 <= i < n
      ensures Segment(start, span, n, i) <= raw[i] < Segment(start, span, n, i + 1)
      ensures start <= raw[i] < start + span
    {
      PointInSegment(seed, spent, start, span, n, i);
      SegmentsOrdered(start, span, n, 0, i);
      SegmentsOrdered(start, span, n, i + 1, n);
    }
    forall i, j | 0 <= i < j < n ensures raw[i] < raw[j] {
      SegmentsOrdered(start, span, n, i + 1, j);
    }
  }

  /** The place that a draw picks in the `i`-th of `n` equal parts of a window. */
  ghost function Picked(start: int, span: nat, n: nat, i: nat, draw: nat): int
    requires n > 0
  {
    var from, to := start + span * i / n, start + span * (i + 1) / n;
    from + draw * (to - from) / 4294967296
  }

  /** How many parts a draw asks for. */
  ghost function Parts(rule: RandomRule, draw: nat): int {
    if rule.maxTimes == rule.minTimes then rule.minTimes
    else rule.minTimes + draw * (rule.maxTimes - rule.minTimes + 1) / 4294967296
  }

  ghost predicate LongEnough(rule: RandomRule, seed: bv32) {
    1 <= rule.minTimes <= rule.maxTimes && Span(rule) >= MIN_SPAN && Span(rule) >= Times(rule, seed)
  }

  /** Which points they are: the window is cut into as many parts as the first draw says, unless
      that is fixed, and each further draw picks the place in its part. */
  lemma PointsFollowDraws(zone: Offset, rule: RandomRule, seed: bv32, date: int)
    requires LongEnough(rule, seed)
    ensures Span(rule) == (rule.end - rule.start) * 60000 >= 900000
    ensures var n, start := Parts(rule, Draw(seed, 1)), MidnightUtc(zone, date) + rule.start * 60000;
            && |Plan(zone, rule, seed, date)| == n > 0
            && forall i :: 0 <= i < n ==>
                 var draw := Draw(seed, if rule.maxTimes == rule.minTimes then i + 1 else i + 2);
                 Plan(zone, rule, seed, date)[i] == Picked(start, Span(rule), n, i, draw)
  {
    PlanShape(zone, rule, seed, date);
    TimesAre(rule, seed);
    assert DayStart(zone, rule, date) == MidnightUtc(zone, date) + rule.start * 60000;
    hide Plan, Draw, Times, Picked, Parts, DayStart, MidnightUtc, RawPoints, LongEnough, Span;
    forall i | 0 <= i < Times(rule, seed)
      ensures Plan(zone, rule, seed, date)[i]
           == Picked(DayStart(zone, rule, date), Span(rule), Times(rule, seed), i,
                     Draw(seed, if rule.maxTimes == rule.minTimes then i + 1 else i + 2))
    {
      PointFollows(zone, rule, seed, date, i);
    }
  }

  lemma PointFollows(zone: Offset, rule: RandomRule, seed: bv32, date: int, i: nat)
    requires LongEnough(rule, seed) && i < Times(rule, seed)
    ensures |Plan(zone, rule, seed, date)| == Times(rule, seed)
    ensures Plan(zone, rule, seed, date)[i]
         == Picked(DayStart(zone, rule, date), Span(rule), Times(rule, seed), i,
                   Draw(seed, if rule.maxTimes == rule.minTimes then i + 1 else i + 2))
  {
    PlanShape(zone, rule, seed, date);
    var n, start, span := Times(rule, seed), DayStart(zone, rule, date), Span(rule);
    hide Plan, Draw, Times, Picked, DayStart, Segment, PlanPoint, LongEnough, Span;
    SegmentsGrow(start, span, n, i);
    PointIs(seed, Spent(rule), start, span, n, i);
  }

  lemma TimesAre(rule: RandomRule, seed: bv32)
    ensures Times(rule, seed) == Parts(rule, Draw(seed, 1))
  {
    hide Draw;
  }

  lemma PointIs(seed: bv32, spent: nat, start: int, span: nat, n: nat, i: nat)
    requires 0 < n && Segment(start, span, n, i) < Segment(start, span, n, i + 1)
    ensures PlanPoint(seed, spent, start, span, n, i) == Picked(start, span, n, i, Draw(seed, spent + i + 1))
  {
    hide Draw;
  }

  /** Whatever the rule, no point lies before the window. */
  lemma PlanNotBefore(zone: Offset, rule: RandomRule, seed: bv32, date: int)
    ensures forall p :: p in Plan(zone, rule, seed, date) ==> p >= DayStart(zone, rule, date)
  {
    var n, start, span := Times(rule, seed), DayStart(zone, rule, date), Span(rule);
    if span >= MIN_SPAN && n > 0 {
      var raw := RawPoints(seed, Spent(rule), start, span, n);
      UniqueKeeps(raw);
      SortPermutes(Ascending, Unique(raw));
      assert Plan(zone, rule, seed, date) == SortBy(Ascending, Unique(raw));
      hide *;
      forall p | p in SortBy(Ascending, Unique(raw)) ensures p >= start {
        assert p in multiset(SortBy(Ascending, Unique(raw)));
        assert p in raw;
        RawNotBefore(seed, Spent(rule), start, span, n, p);
      }
    }
  }

  lemma RawNotBefore(seed: bv32, spent: nat, start: int, span: nat, n: nat, p: int)
    requires n > 0 && p in RawPoints(seed, spent, start, span, n)
    ensures p >= start
  {
    hide PlanPoint;
    var i: nat :| i < n && RawPoints(seed, spent, start, span, n)[i] == p;
    PointNotBefore(seed, spent, start, span, n, i);
  }

  lemma PointNotBefore(seed: bv32, spent: nat, start: int, span: nat, n: nat, i: nat)
    requires n > 0
    ensures PlanPoint(seed, spent, start, span, n, i) >= start
  {
    ScaledRange(Draw(seed, spent + i + 1), Width(start, span, n, i));
    DivisionBound(span * i, n, 0);
  }

  // ---------------------------------------------------------- next occurrence

  /** `Array.prototype.find` */
  function FirstAfter(plan: seq<int>, bound: int): (r: Option<int>)
    ensures r.Some? ==> r.value in plan && r.value > bound
    ensures r.None? ==> forall p :: p in plan ==> p <= bound
    ensures r.Some? && SortedBy(Ascending, plan) ==> forall p :: p in plan && p > bound ==> r.value <= p
  {
    if plan == [] then None
    else if plan[0] > bound then Some(plan[0])
    else
      assert plan == [plan[0]] + plan[1..];
      FirstAfter(plan[1..], bound)
  }

  /** `nextRandomOccurrence`; `seedOf` hashes a task id and a date. */
  function NextRandomOccurrence(zone: Offset, rule: RandomRule, seedOf: int -> bv32, lastRunAt: Option<int>,
                                now: int): int {
    var today := DateOf(zone, now);
    var last := lastRunAt.GetOr(0);
    match FirstAfter(Plan(zone, rule, seedOf(today), today), if last > now then last else now)
    case Some(point) => point
    case None =>
      var tomorrow := now + DAY;
      var plan := Plan(zone, rule, seedOf(DateOf(zone, tomorrow)), DateOf(zone, tomorrow));
      if plan != [] then plan[0] else tomorrow
  }

  lemma NextRandomIsLater(zone: Offset, rule: RandomRule, seedOf: int -> bv32, lastRunAt: Option<int>, now: int)
    ensures NextRandomOccurrence(zone, rule, seedOf, lastRunAt, now) > now
  {
    hide Plan;
    var date := DateOf(zone, now + DAY);
    var plan := Plan(zone, rule, seedOf(date), date);
    assert plan != [] ==> plan[0] in plan;
    assert date == DateOf(zone, now) + 1;
    DateFacts(zone, now);
    MidnightFacts(zone, date);
    PlanNotBefore(zone, rule, seedOf(date), date);
  }

  /** A usable rule: the window is long enough for every number of draws. */
  predicate Usable(rule: RandomRule) {
    1 <= rule.minTimes <= rule.maxTimes <= Span(rule) && Span(rule) >= MIN_SPAN
  }

  /** Under a usable rule no point of today or tomorrow is skipped: the next occurrence is
      the least of their points that is still ahead. */
  lemma NextRandomIsLeast(zone: Offset, rule: RandomRule, seedOf: int -> bv32, lastRunAt: Option<int>, now: int)
    requires Usable(rule) && lastRunAt.GetOr(0) <= now
    ensures var today := DateOf(zone, now);
            var both := Plan(zone, rule, seedOf(today), today) + Plan(zone, rule, seedOf(today + 1), today + 1);
            LeastAfter(both, now, NextRandomOccurrence(zone, rule, seedOf, lastRunAt, now))
  {
    hide Plan, FirstAfter, MidnightUtc;
    var today := DateOf(zone, now);
    assert DateOf(zone, now + DAY) == today + 1;
    hide DateOf, LeastAfter;
    UsablePlan(zone, rule, seedOf(today), today);
    UsablePlan(zone, rule, seedOf(today + 1), today + 1);
    MidnightFacts(zone, today);
    NextRandomIsLater(zone, rule, seedOf, lastRunAt, now);
    var first, second := Plan(zone, rule, seedOf(today), today), Plan(zone, rule, seedOf(today + 1), today + 1);
    var next := NextRandomOccurrence(zone, rule, seedOf, lastRunAt, now);
    assert next == match FirstAfter(first, now) case Some(point) => point case None => second[0];
    LeastOfTwo(first, second, now, MidnightUtc(zone, today + 1), next);
  }

  ghost predicate LeastAfter(plan: seq<int>, now: int, next: int) {
    next in plan && next > now && forall p :: p in plan && p > now ==> next <= p
  }

  lemma LeastOfTwo(first: seq<int>, second: seq<int>, now: int, midnight: int, next: int)
    requires SortedBy(Ascending, first) && SortedBy(Ascending, second) && second != []
    requires (forall p :: p in first ==> p < midnight) && (forall p :: p in second ==> p >= midnight)
    requires next > now && next == match FirstAfter(first, now) case Some(point) => point case None => second[0]
    ensures LeastAfter(first + second, now, next)
  {
    hide FirstAfter;
    assert second[0] in second;
    assert forall p :: p in second ==> Ascending(second[0], p);
  }

  lemma UsablePlan(zone: Offset, rule: RandomRule, seed: bv32, date: int)
    requires Usable(rule)
    ensures var plan := Plan(zone, rule, seed, date);
            && plan != [] && SortedBy(Ascending, plan)
            && (forall p :: p in plan ==> MidnightUtc(zone, date) <= p < MidnightUtc(zone, date) + DAY)
  {
    TimesInRange(rule, seed);
    PlanShape(zone, rule, seed, date);
    hide Plan, RawPoints, Segment, Times;
  }
}
