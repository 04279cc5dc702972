/** The trigger arithmetic of task-scheduler.ts. Instants are milliseconds, dates are
    day numbers, and a time zone is a fixed offset from UTC in minutes. */
module TaskScheduler {
  import opened Results

  const MINUTE := 60000
  const HOUR := 3600000
  const DAY := 86400000

  const MIN_EVERY_MINUTES := 5

  /** A window bound, after `parseHm`. */
  type MinuteOfDay = m: nat | m < 1440

  type Offset = o: int | -36 * 60 <= o < 36 * 60

  // -------------------------------------------------------------------- dates

  /** `dateString` */
  function DateOf(zone: Offset, at: int): int {
    (at + zone * MINUTE) / DAY
  }

  function LocalHour(zone: Offset, at: int): nat {
    (at + zone * MINUTE) % DAY / HOUR
  }

  function TrueMidnight(zone: Offset, date: int): int {
    date * DAY - zone * MINUTE
  }

  /** What `localMidnightUtc` computes: only whole hours of the offset are read. */
  function MidnightUtc(zone: Offset, date: int): int {
    date * DAY - zone / 60 * HOUR
  }

  function Noon(date: int): int {
    date * DAY + 12 * HOUR
  }

  /** The local reading of a UTC noon. */
  lemma NoonLocally(zone: Offset, date: int)
    ensures DateOf(zone, Noon(date)) == date + (720 + zone) / 1440
    ensures LocalHour(zone, Noon(date)) == (720 + zone) % 1440 / 60
  {
    var local := Noon(date) + zone * MINUTE;
    assert local == date * DAY + (720 + zone) * MINUTE;
    assert local == (date + (720 + zone) / 1440) * DAY + (720 + zone) % 1440 * MINUTE;
  }

  lemma NoonShift(date: int, delta: int)
    ensures (Noon(date) + delta * DAY) / DAY == date + delta
  {
  }

  method LocalMidnightUtc(zone: Offset, date: int) returns (midnight: int)
    ensures midnight == MidnightUtc(zone, date)
    ensures midnight == TrueMidnight(zone, date) <==> zone % 60 == 0
  {
    var guess := Noon(date);
    ghost var noonOf := date;
    for i := 0 to 4
      invariant i <= 1 && guess == Noon(noonOf)
      invariant i == 0 ==> noonOf == date
      invariant i == 1 ==> noonOf + (720 + zone) / 1440 == date
    {
      NoonLocally(zone, noonOf);
      var localDate := DateOf(zone, guess);
      if localDate == date {
        midnight := guess - LocalHour(zone, guess) * HOUR;
        hide DateOf, LocalHour;
        return;
      }
      var delta := if localDate < date then 1 else -1;
      NoonShift(noonOf, delta);
      guess := Noon((guess + delta * DAY) / DAY);
      noonOf := noonOf + delta;
    }
    assert false;
    midnight := guess - 12 * HOUR;
  }

  /** Minutes by which a computed midnight is late. */
  function Lateness(zone: Offset): nat {
    zone % 60
  }

  lemma MidnightFacts(zone: Offset, date: int)
    ensures MidnightUtc(zone, date) == TrueMidnight(zone, date) + Lateness(zone) * MINUTE
    ensures MidnightUtc(zone, date + 1) == MidnightUtc(zone, date) + DAY
    ensures DateOf(zone, MidnightUtc(zone, date) + DAY) == date + 1
  {
  }

  lemma DateFacts(zone: Offset, at: int)
    ensures TrueMidnight(zone, DateOf(zone, at)) <= at < TrueMidnight(zone, DateOf(zone, at) + 1)
  {
  }

  // ------------------------------------------------- points of one day's window

  datatype EveryWindow = EveryWindow(zone: Offset, interval: int, start: MinuteOfDay, end: MinuteOfDay) {
    ghost predicate Valid() {
      interval > 0
    }

    function StartOf(date: int): int {
      MidnightUtc(zone, date) + start * MINUTE
    }

    function EndOf(date: int): int {
      MidnightUtc(zone, date) + end * MINUTE
    }

    /** How many points a day has. */
    function Count(): nat
      requires Valid()
    {
      if start > end then 0 else (end - start) * MINUTE / interval + 1
    }

    /** A trigger point: the window start of some day plus whole intervals, inside that
        day's window. */
    ghost predicate IsPoint(t: int)
      requires Valid()
    {
      exists date: int, k: nat :: PointOf(date, k) == t && k < Count()
    }

    function PointOf(date: int, k: nat): int {
      StartOf(date) + k * interval
    }
  }

  lemma CountExact(w: EveryWindow, date: int, k: nat)
    requires w.Valid()
    ensures k < w.Count() <==> w.PointOf(date, k) <= w.EndOf(date)
  {
    var span := (w.end - w.start) * MINUTE;
    if w.start <= w.end {
      assert k <= span / w.interval <==> k * w.interval <= span by { DivisionBound(span, w.interval, k); }
    } else {
      assert k * w.interval >= 0;
    }
  }

  lemma DivisionBound(span: nat, interval: int, k: nat)
    requires interval > 0
    ensures k <= span / interval <==> k * interval <= span
  {
    var q := span / interval;
    assert span == q * interval + span % interval && 0 <= span % interval < interval;
    if k <= q {
      assert k * interval <= q * interval;
    } else {
      assert k * interval >= (q + 1) * interval == q * interval + interval;
    }
  }

  method EveryWindowPointsInDay(w: EveryWindow, date: int) returns (points: seq<int>)
    requires w.Valid()
    ensures |points| == w.Count()
    ensures forall k :: 0 <= k < |points| ==> points[k] == w.PointOf(date, k)
  {
    var midnight := LocalMidnightUtc(w.zone, date);
    var end := midnight + w.end * MINUTE;
    var t := midnight + w.start * MINUTE;
    points := [];
    while t <= end
      invariant t == w.PointOf(date, |points|) && end == w.EndOf(date)
      invariant forall k :: 0 <= k < |points| ==> points[k] == w.PointOf(date, k)
      invariant |points| <= w.Count()
      decreases end - t
    {
      CountExact(w, date, |points|);
      NextPoint(w, date, |points|);
      points := points + [t];
      t := t + w.interval;
    }
    CountExact(w, date, |points|);
  }

  lemma NextPoint(w: EveryWindow, date: int, k: nat)
    requires w.Valid()
    ensures w.PointOf(date, k + 1) == w.PointOf(date, k) + w.interval
  {
    assert (k + 1) * w.interval == k * w.interval + w.interval;
  }

  lemma {:induction false} PointsIncrease(w: EveryWindow, date: int, j: nat, k: nat)
    requires w.Valid() && j < k
    ensures w.PointOf(date, j) < w.PointOf(date, k)
    decreases k
  {
    NextPoint(w, date, k - 1);
    if j < k - 1 { PointsIncrease(w, date, j, k - 1); }
  }

  // --------------------------------------------------------- the next such point

  /** First point of `date` after `after`, if that day has one. */
  ghost predicate FirstOnDay(w: EveryWindow, date: int, after: int, r: Option<int>)
    requires w.Valid()
  {
    match r
    case None => forall k: nat :: k < w.Count() ==> w.PointOf(date, k) <= after
    case Some(t) =>
      exists k: nat :: k < w.Count() && t == w.PointOf(date, k) > after
                       && (forall j: nat :: j < k ==> w.PointOf(date, j) <= after)
  }

  /** The `filter` and its first element. */
  method FirstPointAfter(w: EveryWindow, date: int, after: int) returns (r: Option<int>)
    requires w.Valid()
    ensures FirstOnDay(w, date, after, r)
  {
    var points := EveryWindowPointsInDay(w, date);
    for k := 0 to |points|
      invariant forall j: nat :: j < k ==> w.PointOf(date, j) <= after
    {
      if points[k] > after {
        assert w.PointOf(date, k) == points[k];
        return Some(points[k]);
      }
    }
    r := None;
  }

  /** Number of the first of a day's points that lies after `after`, were there no end. */
  function IndexAfter(w: EveryWindow, date: int, after: int): nat
    requires w.Valid()
  {
    if after < w.StartOf(date) then 0 else (after - w.StartOf(date)) / w.interval + 1
  }

  function NextInDay(w: EveryWindow, date: int, after: int): Option<int>
    requires w.Valid()
  {
    var k := IndexAfter(w, date, after);
    if k < w.Count() then Some(w.PointOf(date, k)) else None
  }

  /** The next point in closed form, without a search. */
  function NextWindowPoint(w: EveryWindow, after: int): Option<int>
    requires w.Valid()
  {
    var today := DateOf(w.zone, after);
    match NextInDay(w, today, after)
    case Some(t) => Some(t)
    case None => NextInDay(w, today + 1, after)
  }

  lemma IndexAfterExact(w: EveryWindow, date: int, after: int, k: nat)
    requires w.Valid()
    ensures w.PointOf(date, k) > after <==> k >= IndexAfter(w, date, after)
  {
    if after < w.StartOf(date) {
      assert k * w.interval >= 0;
    } else {
      DivisionBound(after - w.StartOf(date), w.interval, k);
    }
  }

  lemma FirstOnDayIs(w: EveryWindow, date: int, after: int, r: Option<int>)
    requires w.Valid() && FirstOnDay(w, date, after, r)
    ensures r == NextInDay(w, date, after)
  {
    var index := IndexAfter(w, date, after);
    IndexAfterExact(w, date, after, index);
    match r
    case None =>
    case Some(t) =>
      var k: nat :| k < w.Count() && t == w.PointOf(date, k) > after
                    && forall j: nat :: j < k ==> w.PointOf(date, j) <= after;
      IndexAfterExact(w, date, after, k);
  }

  lemma NextInDayIs(w: EveryWindow, date: int, after: int)
    requires w.Valid()
    ensures FirstOnDay(w, date, after, NextInDay(w, date, after))
  {
    var k := IndexAfter(w, date, after);
    forall j: nat ensures w.PointOf(date, j) > after <==> j >= k {
      IndexAfterExact(w, date, after, j);
    }
    assert w.PointOf(date, k) > after;
  }

  /** What the closed form means. */
  lemma NextWindowPointIs(w: EveryWindow, after: int)
    requires w.Valid()
    ensures var r := NextWindowPoint(w, after);
            && (r.None? <==> w.start > w.end)
            && (r.Some? ==> r.value > after && Found(w, after, r.value) && w.IsPoint(r.value))
  {
    var today := DateOf(w.zone, after);
    NextInDayIs(w, today, after);
    NextInDayIs(w, today + 1, after);
    TomorrowIsLater(w, after);
    var r := NextWindowPoint(w, after);
    if r.Some? { FoundIsPoint(w, after, r.value); }
  }

  const DAY_GUARD := 400

  /** The search ends on the day of `after` or, when that day has nothing left, on the
      next one. */
  ghost predicate Found(w: EveryWindow, after: int, t: int)
    requires w.Valid()
  {
    var today := DateOf(w.zone, after);
    FirstOnDay(w, today, after, Some(t))
    || (FirstOnDay(w, today, after, None) && FirstOnDay(w, today + 1, after, Some(t)))
  }

  /** `nextEveryWindowPoint`: at most two of the 400 days are ever visited, and nothing
      is found exactly when the window starts after it ends. */
  method NextEveryWindowPoint(w: EveryWindow, after: int) returns (r: Option<int>, ghost visited: nat)
    requires w.Valid()
    ensures r == NextWindowPoint(w, after)
    ensures r.None? <==> w.start > w.end
    ensures r.Some? ==> visited <= 2 && Found(w, after, r.value)
    ensures r.Some? ==> r.value > after && w.IsPoint(r.value)
    ensures r.Some? && Reachable(w) ==> forall t :: w.IsPoint(t) && t > after ==> r.value <= t
  {
    NextWindowPointIs(w, after);
    if w.start <= w.end && Reachable(w) { FoundIsLeast(w, after, NextWindowPoint(w, after).value); }
    hide FirstOnDay, NextInDay, Found, Reachable;
    ghost var today := DateOf(w.zone, after);
    var day := DateOf(w.zone, after);
    visited := 0;
    for guard := 0 to DAY_GUARD
      invariant visited == guard && day == today + guard
      invariant w.start <= w.end ==> guard <= 1
      invariant guard == 1 ==> NextInDay(w, today, after).None?
    {
      visited := visited + 1;
      var first := FirstPointAfter(w, day, after);
      FirstOnDayIs(w, day, after, first);
      DaysWithPoints(w, after, guard);
      if first.Some? { return first, visited; }
      var midnight := LocalMidnightUtc(w.zone, day);
      MidnightFacts(w.zone, day);
      day := DateOf(w.zone, midnight + DAY);
    }
    r := None;
  }

  lemma DaysWithPoints(w: EveryWindow, after: int, days: nat)
    requires w.Valid()
    ensures w.start > w.end ==> NextInDay(w, DateOf(w.zone, after) + days, after).None?
    ensures w.start <= w.end && days == 1 ==> NextInDay(w, DateOf(w.zone, after) + days, after).Some?
  {
    TomorrowIsLater(w, after);
  }

  /** The last point of a window does not fall into the minutes by which computed
      midnights are late; for zones of whole hours this always holds. */
  predicate Reachable(w: EveryWindow)
    requires w.interval > 0
  {
    w.start <= w.end ==> LastPoint(w) + Lateness(w.zone) * MINUTE <= DAY
  }

  /** Distance of a day's last point from its computed midnight. */
  function LastPoint(w: EveryWindow): nat
    requires w.interval > 0 && w.start <= w.end
  {
    w.start * MINUTE + (w.end - w.start) * MINUTE / w.interval * w.interval
  }

  lemma LastPointInWindow(w: EveryWindow)
    requires w.Valid() && w.start <= w.end
    ensures LastPoint(w) <= w.end * MINUTE
    ensures forall date :: w.PointOf(date, w.Count() - 1) == MidnightUtc(w.zone, date) + LastPoint(w)
  {
    var span := (w.end - w.start) * MINUTE;
    DivisionBound(span, w.interval, span / w.interval);
  }

  lemma WholeHourReachable(w: EveryWindow)
    requires w.Valid() && w.zone % 60 == 0
    ensures Reachable(w)
  {
    if w.start <= w.end { LastPointInWindow(w); }
  }

  /** The first point of tomorrow is still ahead. */
  lemma TomorrowIsLater(w: EveryWindow, after: int)
    requires w.Valid()
    ensures w.PointOf(DateOf(w.zone, after) + 1, 0) > after
    ensures w.start <= w.end ==> w.Count() > 0
  {
    DateFacts(w.zone, after);
    MidnightFacts(w.zone, DateOf(w.zone, after) + 1);
    assert 0 * w.interval == 0;
  }

  lemma FoundIsPoint(w: EveryWindow, after: int, t: int)
    requires w.Valid() && Found(w, after, t)
    ensures t > after && w.IsPoint(t)
  {
  }

  lemma {:induction false} DaysApart(zone: Offset, a: int, b: int)
    requires a < b
    ensures MidnightUtc(zone, a) + DAY <= MidnightUtc(zone, b)
  {
  }

  /** All points of a day lie between its computed midnight and its last point. */
  lemma PointsOfDay(w: EveryWindow, date: int, k: nat)
    requires w.Valid() && k < w.Count()
    ensures MidnightUtc(w.zone, date) <= w.PointOf(date, k) <= MidnightUtc(w.zone, date) + LastPoint(w)
  {
    LastPointInWindow(w);
    if k > 0 { PointsIncrease(w, date, 0, k); }
    if k < w.Count() - 1 { PointsIncrease(w, date, k, w.Count() - 1); }
    assert 0 * w.interval == 0;
  }

  /** Points of days before today are past. */
  lemma EarlierDaysPast(w: EveryWindow, after: int, date: int, k: nat)
    requires w.Valid() && k < w.Count() && Reachable(w) && date < DateOf(w.zone, after)
    ensures w.PointOf(date, k) <= after
  {
    var today := DateOf(w.zone, after);
    PointsOfDay(w, date, k);
    DaysApart(w.zone, date, today);
    DateFacts(w.zone, after);
    MidnightFacts(w.zone, today);
  }

  lemma FoundIsLeast(w: EveryWindow, after: int, t: int)
    requires w.Valid() && Found(w, after, t) && Reachable(w)
    ensures forall other :: w.IsPoint(other) && other > after ==> t <= other
  {
    forall other | w.IsPoint(other) && other > after ensures t <= other {
      var date: int, j: nat :| w.PointOf(date, j) == other && j < w.Count();
      LeastAgainst(w, after, t, date, j);
    }
  }

  lemma LeastAgainst(w: EveryWindow, after: int, t: int, date: int, j: nat)
    requires w.Valid() && Found(w, after, t) && Reachable(w) && j < w.Count() && w.PointOf(date, j) > after
    ensures t <= w.PointOf(date, j)
  {
    var today := DateOf(w.zone, after);
    if date < today {
      EarlierDaysPast(w, after, date, j);
      assert false;
    }
    var day := if FirstOnDay(w, today, after, Some(t)) then today else today + 1;
    assert FirstOnDay(w, day, after, Some(t));
    var k: nat :| k < w.Count() && t == w.PointOf(day, k) && forall i: nat :: i < k ==> w.PointOf(day, i) <= after;
    if date == day {
      if k < j { PointsIncrease(w, date, k, j); }
    } else if date > day {
      PointsOfDay(w, day, k);
      PointsOfDay(w, date, j);
      LastPointInWindow(w);
      DaysApart(w.zone, day, date);
    }
  }

  /** The search returns the least later point, whatever the instant, exactly when the
      last point of the window is reachable. */
  lemma LeastExactly(w: EveryWindow)
    requires w.Valid() && w.start <= w.end
    ensures Reachable(w) <==>
            forall after, t, other :: Found(w, after, t) && w.IsPoint(other) && other > after ==> t <= other
  {
    if Reachable(w) {
      forall after, t, other | Found(w, after, t) && w.IsPoint(other) && other > after ensures t <= other {
        FoundIsLeast(w, after, t);
      }
    } else {
      var t := MissedPoint(w);
      LastPointInWindow(w);
      var other := w.PointOf(-1, w.Count() - 1);
      assert w.IsPoint(other);
    }
  }

  /** Just before the unreachable last point of a day, the search already looks at the
      next day. */
  lemma MissedPoint(w: EveryWindow) returns (t: int)
    requires w.Valid() && w.start <= w.end && !Reachable(w)
    ensures var other := w.PointOf(-1, w.Count() - 1); Found(w, other - 1, t) && t > other
  {
    LastPointInWindow(w);
    var other := w.PointOf(-1, w.Count() - 1);
    MidnightFacts(w.zone, -1);
    MidnightFacts(w.zone, 0);
    assert DateOf(w.zone, other - 1) == 0;
    t := w.PointOf(0, 0);
    assert 0 * w.interval == 0;
    assert FirstOnDay(w, 0, other - 1, Some(t));
  }
}
