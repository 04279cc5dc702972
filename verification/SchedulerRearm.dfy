/** When a scheduled task runs again, by the rules and limits of scheduler-core.ts and
    task-scheduler.ts alone: after a run, after a skipped or deferred one, and over any series
    of calls. */
module SchedulerRearm {
  import opened Results
  import opened TaskScheduler
  import opened RandomPlan
  import opened SchedulerCore

  /** The next run after `now`. An interval counts at least five minutes; a one-off, and a
      window that ends before it starts, have none. */
  ghost predicate RearmedFrom(task: Task, now: int, next: Option<int>) {
    match task.rule
    case Once(_) => next == None
    case Every(minutes, None, _) => next == Some(now + (if minutes > 5 then minutes else 5) * 60000)
    case Every(minutes, Some((start, end)), _) =>
      if start > end then next == None
      else
        var window := EveryWindow(task.zone, (if minutes > 5 then minutes else 5) * 60000, start, end);
        next.Some? && next.value > now && next == NextWindowPoint(window, now)
    case Random(rule, seedOf) =>
      next.Some? && next.value > now
      && next == Some(NextRandomOccurrence(task.zone, rule, seedOf, Some(now), now))
    case Cron(matchAfter) => next == matchAfter(now)
  }

  lemma ComputedIsRearmed(task: Task, now: int)
    ensures RearmedFrom(task, now, ComputeNextRunAt(task, now, now))
  {
    StopsExactly(task, now);
    if task.rule.Every? && task.rule.window.Some? {
      NextWindowPointIs(WindowOf(task), now);
    } else if task.rule.Random? {
      NextRandomIsLater(task.zone, task.rule.rule, task.rule.seedOf, Some(now), now);
    }
    hide NextWindowPoint, NextRandomOccurrence;
  }

  /** What becomes of a due task: while it runs it is skipped, and its next run is named; a
      delivery that waits for its answer as long as the timeout is taken over; without room it
      waits; otherwise it starts, and its next run is named. */
  lemma DueByCases(task: Task, state: RuntimeState, now: int, maxConcurrent: int, timeout: int)
    ensures var d := DecideDue(task, state, now, maxConcurrent, timeout);
            var hung := state.dispatchedAt.At? && !state.acked && now - state.dispatchedAt.ms >= timeout;
            && (d.action.Skip? <==> state.running)
            && (d.action.Takeover? <==> !state.running && hung)
            && (d.action.Enqueue? <==> !state.running && !hung && state.activeRuns >= maxConcurrent)
            && (d.action.Fire? <==> !state.running && !hung && state.activeRuns < maxConcurrent)
            && (d.action.Skip? || d.action.Fire? ==> RearmedFrom(task, now, d.nextRunAt))
            && (d.action.Takeover? || d.action.Enqueue? ==> d.nextRunAt == None)
            && (d.reason == None <==> d.action.Fire?)
  {
    ComputedIsRearmed(task, now);
    hide ComputeNextRunAt, RearmedFrom;
  }

  /** What becomes of a stored due point: a missed one is caught up once, if it lies at most the
      window back; a later, a second or an unreadable one is deferred to the next run. */
  lemma CatchupByCases(task: Task, stored: Instant, now: int, window: int, count: int)
    ensures var d := DecideCatchup(task, stored, now, window, count);
            var missed := stored.At? && stored.ms < now;
            && (d.action.Catchup? <==> missed && now - stored.ms <= window && count < 1)
            && (d.action.Defer? <==> stored.Unreadable? || (missed && (now - stored.ms > window || count >= 1)))
            && (d.action.Advance? <==> stored.Missing? || (stored.At? && !missed))
            && (d.action.Defer? ==> RearmedFrom(task, now, d.nextRunAt))
            && (!d.action.Defer? ==> d.nextRunAt == None)
  {
    ComputedIsRearmed(task, now);
    hide ComputeNextRunAt, RearmedFrom;
  }

  // ------------------------------------------------------------- the daemon

  /** One call of `fireTask`, by cases. */
  ghost predicate CallAs(task: Task, s: TaskState, c: Call, next: TaskState, effect: Effect) {
    var late := s.nextRunAt.Some? && s.nextRunAt.value < c.now;
    && effect == (if !c.force && s.nextRunAt.Some? && s.nextRunAt.value > c.now then Early
                  else if late && (c.now - s.nextRunAt.value > 86400000 || s.catchups >= 1) then Deferred
                  else if c.running then Declined
                  else if c.activeRuns >= c.maxConcurrent then PutInQueue
                  else Fired)
    && next.catchups == s.catchups + (if late && effect != Deferred then 1 else 0)
    && (effect == Fired ==> RearmedFrom(task, c.now, next.nextRunAt))
    && (effect == Deferred ==>
          RearmedFrom(task, c.now, next.nextRunAt)
          || (RearmedFrom(task, c.now, None) && next.nextRunAt == s.nextRunAt))
    && (effect != Fired && effect != Deferred ==> next.nextRunAt == s.nextRunAt)
  }

  lemma CallByCases(task: Task, s: TaskState, c: Call)
    ensures var (next, effect) := FireTask(task, s, c); CallAs(task, s, c, next, effect)
  {
    ComputedIsRearmed(task, c.now);
    hide ComputeNextRunAt, RearmedFrom;
  }

  /** A rule with a next run after every run. */
  ghost predicate Repeats(task: Task) {
    match task.rule
    case Once(_) => false
    case Every(_, window, _) => window.None? || window.value.0 <= window.value.1
    case Random(_, _) => true
    case Cron(matchAfter) => forall now :: matchAfter(now).Some?
  }

  /** What is kept for a task after a series of calls. */
  function After(task: Task, s: TaskState, calls: seq<Call>): TaskState
    decreases |calls|
  {
    if calls == [] then s else After(task, FireTask(task, s, calls[0]).0, calls[1..])
  }

  lemma RepeatsRearmed(task: Task, now: int, next: Option<int>)
    requires RearmedFrom(task, now, next)
    ensures Repeats(task) ==> next.Some?
    ensures !Repeats(task) && !task.rule.Cron? ==> next.None?
  {
    hide NextWindowPoint, NextRandomOccurrence;
  }

  /** A task that repeats stays armed, whatever the calls; one that does not is armed until it
      has run, and then never again. */
  lemma {:induction false} ArmedExactly(task: Task, s: TaskState, calls: seq<Call>)
    requires task.rule.Cron? ==> Repeats(task)
    ensures After(task, s, calls).nextRunAt.None? <==>
              if Repeats(task) then s.nextRunAt.None? && Firings(task, s, calls) == []
              else s.nextRunAt.None? || Firings(task, s, calls) != []
    decreases |calls|
  {
    if calls != [] {
      var c := calls[0];
      var (next, effect) := FireTask(task, s, c);
      CallByCases(task, s, c);
      ArmedExactly(task, next, calls[1..]);
      hide FireTask, RearmedFrom, Repeats;
      if RearmedFrom(task, c.now, None) { RepeatsRearmed(task, c.now, None); }
      if RearmedFrom(task, c.now, next.nextRunAt) { RepeatsRearmed(task, c.now, next.nextRunAt); }
    }
  }
}
