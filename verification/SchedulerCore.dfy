/** Re-arming of scheduled tasks: `computeNextRunAt` and `initialNextRunAt` of
    task-scheduler.ts, the decisions of scheduler-core.ts, and the daemon's use of them. */
module SchedulerCore {
  import opened Results
  import opened TaskScheduler
  import opened RandomPlan

  /** A stored timestamp after `Date.parse`. */
  datatype Instant = Missing | Unreadable | At(ms: int)

  /** `next` of a cron rule is the cron library; it gives nothing for a bad expression. */
  datatype Rule =
    | Once(runAt: Instant)
    | Every(intervalMinutes: int, window: Option<(MinuteOfDay, MinuteOfDay)>, firstRunAt: Instant)
    | Random(rule: RandomRule, seedOf: int -> bv32)
    | Cron(next: int -> Option<int>)

  datatype Task = Task(rule: Rule, zone: Offset)

  function Interval(rule: Rule): (ms: int)
    requires rule.Every?
    ensures ms >= 5 * MINUTE
  {
    (if rule.intervalMinutes > MIN_EVERY_MINUTES then rule.intervalMinutes else MIN_EVERY_MINUTES) * MINUTE
  }

  function WindowOf(task: Task): (w: EveryWindow)
    requires task.rule.Every? && task.rule.window.Some?
    ensures w.Valid()
  {
    EveryWindow(task.zone, Interval(task.rule), task.rule.window.value.0, task.rule.window.value.1)
  }

  /** `computeNextRunAt` */
  function ComputeNextRunAt(task: Task, firedAt: int, now: int): Option<int> {
    match task.rule
    case Once(_) => None
    case Every(_, window, _) =>
      if window.Some? then NextWindowPoint(WindowOf(task), firedAt) else Some(firedAt + Interval(task.rule))
    case Random(rule, seedOf) => Some(NextRandomOccurrence(task.zone, rule, seedOf, Some(firedAt), now))
    case Cron(next) => next(firedAt)
  }

  /** What is taken from the cron library: a match lies after the given instant. */
  ghost predicate CronAdvances(task: Task) {
    task.rule.Cron? ==> forall t :: task.rule.next(t).Some? ==> task.rule.next(t).value > t
  }

  /** Whatever the rule, the next run lies ahead. */
  lemma NextRunIsLater(task: Task, now: int)
    requires CronAdvances(task)
    ensures var next := ComputeNextRunAt(task, now, now); next.Some? ==> next.value > now
  {
    match task.rule
    case Once(_) =>
    case Every(_, window, _) =>
      if window.Some? { NextWindowPointIs(WindowOf(task), now); }
    case Random(rule, seedOf) =>
      NextRandomIsLater(task.zone, rule, seedOf, Some(now), now);
    case Cron(_) =>
  }

  /** A task has no next run exactly when it was a one-off, when its window ends before it
      starts (an overnight window), or when cron has no further match. */
  lemma StopsExactly(task: Task, now: int)
    ensures ComputeNextRunAt(task, now, now).None? <==>
            match task.rule
            case Once(_) => true
            case Every(_, window, _) => window.Some? && window.value.0 > window.value.1
            case Random(_, _) => false
            case Cron(next) => next(now).None?
  {
    if task.rule.Every? && task.rule.window.Some? { NextWindowPointIs(WindowOf(task), now); }
  }

  /** The window starts after it ends. */
  predicate Backward(task: Task) {
    task.rule.Every? && task.rule.window.Some? && task.rule.window.value.0 > task.rule.window.value.1
  }

  // ---------------------------------------------------------------- first run

  const FALLBACK := 5 * MINUTE

  /** `candidate` is the first of `first`, `first + interval`, … that lies ahead. */
  ghost predicate FirstAhead(first: int, interval: int, now: int, candidate: int) {
    exists k: nat {:trigger k * interval} ::
      candidate == first + k * interval > now && (k == 0 || candidate - interval <= now)
  }

  /** The postponing loop of `initialNextRunAt`. */
  method Postpone(first: int, interval: int, now: int) returns (candidate: int)
    requires interval > 0
    ensures FirstAhead(first, interval, now, candidate)
  {
    ghost var k: nat := 0;
    candidate := first;
    while candidate <= now
      invariant candidate == first + k * interval
      invariant k == 0 || candidate - interval <= now
      decreases now - candidate
    {
      assert (k + 1) * interval == k * interval + interval;
      candidate := candidate + interval;
      k := k + 1;
    }
    assert candidate == first + k * interval;
  }

  /** `initialNextRunAt` */
  method InitialNextRunAt(task: Task, now: int) returns (next: Instant)
    requires CronAdvances(task)
    ensures task.rule.Once? ==> next == task.rule.runAt
    ensures !task.rule.Once? && next.At? ==> next.ms > now
    ensures task.rule.Every? ==> next.At?
    ensures task.rule.Every? && task.rule.window.Some? ==>
            next.ms == NextWindowPoint(WindowOf(task), now).GetOr(now + 300000)
    ensures Backward(task) ==> next == At(now + 300000)
    ensures task.rule.Every? && task.rule.window.None? ==>
            match task.rule.firstRunAt
            case Missing => next.ms == now + 300000
            case Unreadable => next.ms == now + 300000
            case At(first) => FirstAhead(first, Interval(task.rule), now, next.ms)
    ensures task.rule.Random? ==>
              next == At(NextRandomOccurrence(task.zone, task.rule.rule, task.rule.seedOf, None, now))
    ensures task.rule.Cron? ==> next == match task.rule.next(now) case Some(t) => At(t) case None => Missing
  {
    match task.rule
    case Once(runAt) =>
      next := runAt;
    case Every(_, window, firstRunAt) =>
      if window.Some? {
        var point, _ := NextEveryWindowPoint(WindowOf(task), now);
        hide NextWindowPoint;
        next := At(point.GetOr(now + FALLBACK));
      } else {
        if firstRunAt.Unreadable? { return At(now + FALLBACK); }
        var candidate := Postpone(if firstRunAt.At? then firstRunAt.ms else now + FALLBACK, Interval(task.rule), now);
        next := At(candidate);
        if firstRunAt.Missing? { FirstIsAhead(now + FALLBACK, Interval(task.rule), now, candidate); }
      }
    case Random(rule, seedOf) =>
      NextRandomIsLater(task.zone, rule, seedOf, None, now);
      next := At(NextRandomOccurrence(task.zone, rule, seedOf, None, now));
    case Cron(nextMatch) =>
      next := match nextMatch(now) case Some(t) => At(t) case None => Missing;
  }

  lemma FirstIsAhead(first: int, interval: int, now: int, candidate: int)
    requires interval > 0 && first > now && FirstAhead(first, interval, now, candidate)
    ensures candidate == first
  {
    var k: nat :| candidate == first + k * interval > now && (k == 0 || candidate - interval <= now);
    assert k * interval == (k - 1) * interval + interval;
    assert k > 0 ==> (k - 1) * interval >= 0;
  }

  // ----------------------------------------------------------------- decisions

  datatype Reason = PreviousRunning | DesktopHung | ConcurrencyLimit | CaughtUp

  datatype Action = Fire | Enqueue | Skip(why: Reason) | Takeover(why: Reason) | Catchup | Defer | Advance

  datatype Status = Pending | Running | Queued | Hung | Skipped | CatchingUp

  datatype Decision = Decision(action: Action, status: Status, nextRunAt: Option<int>, reason: Option<Reason>)

  datatype RuntimeState = RuntimeState(running: bool, dispatchedAt: Instant, acked: bool, activeRuns: int)

  const DISPATCH_TIMEOUT := 30000
  const CATCHUP_WINDOW := 24 * HOUR
  const CATCHUP_MAX := 1

  /** `decideDue` */
  function DecideDue(task: Task, state: RuntimeState, now: int, maxConcurrent: int, timeout: int): Decision {
    if state.running then
      Decision(Skip(PreviousRunning), Skipped, ComputeNextRunAt(task, now, now), Some(PreviousRunning))
    else if state.dispatchedAt.At? && !state.acked && now - state.dispatchedAt.ms >= timeout then
      Decision(Takeover(DesktopHung), Hung, None, Some(DesktopHung))
    else if state.activeRuns >= maxConcurrent then
      Decision(Enqueue, Queued, None, Some(ConcurrencyLimit))
    else
      Decision(Fire, Running, ComputeNextRunAt(task, now, now), None)
  }

  /** `decideCatchup` */
  function DecideCatchup(task: Task, nextRunAt: Instant, now: int, window: int, count: int): Decision {
    match nextRunAt
    case Missing => Decision(Advance, Pending, None, None)
    case Unreadable => Decision(Defer, Pending, ComputeNextRunAt(task, now, now), None)
    case At(due) =>
      if now - due <= 0 then Decision(Advance, Pending, None, None)
      else if now - due <= window && count < CATCHUP_MAX then Decision(Catchup, CatchingUp, None, Some(CaughtUp))
      else Decision(Defer, Pending, ComputeNextRunAt(task, now, now), None)
  }

  /** Every decision that re-arms a task re-arms it in the future. */
  lemma RearmedInFuture(task: Task, state: RuntimeState, nextRunAt: Instant, now: int, maxConcurrent: int, timeout: int,
                        window: int, count: int)
    requires CronAdvances(task)
    ensures var due := DecideDue(task, state, now, maxConcurrent, timeout);
            && (due.nextRunAt.Some? ==> due.nextRunAt.value > now)
            && (due.nextRunAt.Some? ==> due.action.Fire? || due.action.Skip?)
    ensures var late := DecideCatchup(task, nextRunAt, now, window, count);
            && (late.nextRunAt.Some? ==> late.nextRunAt.value > now)
            && (late.nextRunAt.Some? ==> late.action.Defer?)
  {
    NextRunIsLater(task, now);
  }

  // ------------------------------------------------------------- runs of a task

  /** What the daemon keeps for one enabled task. */
  datatype TaskState = TaskState(nextRunAt: Option<int>, catchups: nat)

  /** One call of `fireTask`: a timer callback, a start-up sweep, or (forced) a task that
      leaves the queue or is retried. */
  datatype Call = Call(now: int, force: bool, running: bool, activeRuns: int, maxConcurrent: int)

  datatype Effect = Early | Deferred | PutInQueue | Declined | Fired

  /** `fireTask` of the daemon. */
  function FireTask(task: Task, s: TaskState, c: Call): (TaskState, Effect) {
    if !c.force && s.nextRunAt.Some? && s.nextRunAt.value > c.now then (s, Early)
    else
      var stored := match s.nextRunAt case Some(t) => At(t) case None => Missing;
      var sweep := DecideCatchup(task, stored, c.now, CATCHUP_WINDOW, s.catchups);
      if sweep.action.Defer? then
        (if sweep.nextRunAt.Some? then s.(nextRunAt := sweep.nextRunAt) else s, Deferred)
      else
        var counted := if sweep.action.Catchup? then s.(catchups := s.catchups + 1) else s;
        var state := RuntimeState(c.running, Missing, false, c.activeRuns);
        var decision := DecideDue(task, state, c.now, c.maxConcurrent, DISPATCH_TIMEOUT);
        match decision.action
        case Fire => (counted.(nextRunAt := decision.nextRunAt), Fired)
        case Enqueue => (counted, PutInQueue)
        case _ => (counted, Declined)
  }

  /** A run starts exactly when its point is due or forced, the catch-up rule lets it
      through, it is not running already and there is room. */
  lemma FiredExactly(task: Task, s: TaskState, c: Call)
    ensures var late := s.nextRunAt.Some? && s.nextRunAt.value < c.now;
            FireTask(task, s, c).1.Fired? <==>
              && (c.force || s.nextRunAt.None? || s.nextRunAt.value <= c.now)
              && (late ==> c.now - s.nextRunAt.value <= CATCHUP_WINDOW && s.catchups == 0)
              && !c.running && c.activeRuns < c.maxConcurrent
  {
  }

  /** A window that starts after it ends has no points, and still its task runs: for the first
      time five minutes after its creation, outside the window. The run leaves it without a next
      run, and in that state any call with room starts it again, such as the one that a new
      registration arms, once more five minutes ahead. */
  lemma BackwardWindowRuns(task: Task, created: int, catchups: nat, c: Call)
    requires Backward(task) && c.now == created + 300000 && !c.running && c.activeRuns < c.maxConcurrent
    ensures NextWindowPoint(WindowOf(task), created).GetOr(created + 300000) == c.now
    ensures FireTask(task, TaskState(Some(c.now), catchups), c) == (TaskState(None, catchups), Fired)
    ensures FireTask(task, TaskState(None, catchups), c) == (TaskState(None, catchups), Fired)
  {
    NextWindowPointIs(WindowOf(task), created);
    StopsExactly(task, c.now);
  }

  datatype Firing = Firing(due: Option<int>, at: int) {
    predicate Late() {
      due.Some? && due.value < at
    }
  }

  /** The runs started by a series of calls, in order. */
  function Firings(task: Task, s: TaskState, calls: seq<Call>): seq<Firing>
    decreases |calls|
  {
    if calls == [] then []
    else
      var step := FireTask(task, s, calls[0]);
      (if step.1.Fired? then [Firing(s.nextRunAt, calls[0].now)] else []) + Firings(task, step.0, calls[1..])
  }

  ghost predicate ClockOrder(calls: seq<Call>, since: int) {
    && (forall c :: c in calls ==> since <= c.now)
    && (forall i, j :: 0 <= i < j < |calls| ==> calls[i].now <= calls[j].now)
  }

  /** Due points lie after the last run. */
  predicate ArmedAfter(s: TaskState, at: int) {
    s.nextRunAt.Some? ==> s.nextRunAt.value > at
  }

  lemma FireTaskKeepsArmed(task: Task, s: TaskState, c: Call, at: int)
    requires CronAdvances(task) && ArmedAfter(s, at) && at <= c.now
    ensures var (next, effect) := FireTask(task, s, c);
            ArmedAfter(next, at) && (effect.Fired? ==> ArmedAfter(next, c.now))
  {
    NextRunIsLater(task, c.now);
  }

  lemma {:induction false} ArmedRun(task: Task, s: TaskState, calls: seq<Call>, at: int)
    requires CronAdvances(task) && ArmedAfter(s, at) && ClockOrder(calls, at)
    ensures forall f :: f in Firings(task, s, calls) ==> f.at >= at && (f.due.Some? ==> f.due.value > at)
    decreases |calls|
  {
    if calls != [] {
      FireTaskKeepsArmed(task, s, calls[0], at);
      ArmedRun(task, FireTask(task, s, calls[0]).0, calls[1..], at);
    }
  }

  /** A run's due point lies after the moment of every earlier run. */
  ghost predicate RunOnce(firings: seq<Firing>) {
    forall i, j :: 0 <= i < j < |firings| && firings[j].due.Some? ==> firings[i].at < firings[j].due.value
  }

  /** No due point is run twice: over any series of calls, once a run has started, later runs are
      for later due points. */
  lemma {:induction false} DuePointsRunOnce(task: Task, s: TaskState, calls: seq<Call>, since: int)
    requires CronAdvances(task) && ClockOrder(calls, since)
    ensures RunOnce(Firings(task, s, calls))
    decreases |calls|
  {
    if calls != [] {
      var (next, effect) := FireTask(task, s, calls[0]);
      DuePointsRunOnce(task, next, calls[1..], since);
      if effect.Fired? {
        NextRunIsLater(task, calls[0].now);
        ArmedRun(task, next, calls[1..], calls[0].now);
        FirstThenRest(Firing(s.nextRunAt, calls[0].now), Firings(task, next, calls[1..]));
      }
    }
  }

  lemma FirstThenRest(first: Firing, rest: seq<Firing>)
    requires forall f :: f in rest ==> (f.due.Some? ==> f.due.value > first.at)
    requires RunOnce(rest)
    ensures RunOnce([first] + rest)
  {
  }

  function LateRuns(firings: seq<Firing>): nat {
    if firings == [] then 0 else (if firings[0].Late() then 1 else 0) + LateRuns(firings[1..])
  }

  /** A task is run late at most once in the life of a daemon: a callback that comes after
      its due point uses up the one catch-up, and later ones are only deferred. */
  lemma {:induction false} LateRunsBounded(task: Task, s: TaskState, calls: seq<Call>)
    ensures s.catchups <= CATCHUP_MAX ==> LateRuns(Firings(task, s, calls)) + s.catchups <= CATCHUP_MAX
    ensures s.catchups > CATCHUP_MAX ==> LateRuns(Firings(task, s, calls)) == 0
    decreases |calls|
  {
    if calls != [] {
      var (next, effect) := FireTask(task, s, calls[0]);
      LateRunsBounded(task, next, calls[1..]);
      var rest := Firings(task, next, calls[1..]);
      if effect.Fired? {
        assert Firings(task, s, calls) == [Firing(s.nextRunAt, calls[0].now)] + rest;
        assert ([Firing(s.nextRunAt, calls[0].now)] + rest)[1..] == rest;
      } else {
        assert Firings(task, s, calls) == rest;
      }
    }
  }

  /** When the attempt that drains a queued task only defers it: among others always when
      it was already late on entering the queue, which used up its catch-up. */
  lemma QueuedLateIsDropped(task: Task, s: TaskState, first: Call, second: Call)
    requires first.now <= second.now
    requires FireTask(task, s, first).1.PutInQueue?
    ensures FireTask(task, FireTask(task, s, first).0, second).1.Deferred? <==>
            && s.nextRunAt.Some? && s.nextRunAt.value < second.now
            && (s.nextRunAt.value < first.now || s.catchups >= CATCHUP_MAX
                || second.now - s.nextRunAt.value > CATCHUP_WINDOW)
  {
  }
}
