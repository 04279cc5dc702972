/** The persistence journal of demo-run-persistence.ts and the replay of its log. */
module RunJournal {
  import opened Results
  import opened Json
  import opened RunStateDelta
  import opened RunStateDiff
  import opened DiffEffort
  import opened DemoRunForm

  /** A log event: the two payload fields that carry run state, and the rest. */
  datatype EventDraft = EventDraft(
    id: string, eventType: string, runId: Option<string>,
    run: Option<Json>, delta: Option<RunStateDelta>, rest: map<string, Json>)

  predicate Terminal(eventType: string) {
    eventType in {"run.completed", "run.failed", "run.cancelled", "run.paused"}
  }

  /** The event concerns a run: its `runId` is neither missing nor empty. */
  predicate Attributed(e: EventDraft) {
    e.runId.Some? && e.runId.value != ""
  }

  // ------------------------------------------------------------------ staging

  datatype JournalError = RunRejected | IdentityMismatch | ReservedField | DiffFailed(error: DeltaError) | StaleStage

  type Baselines = map<string, RunStateSnapshot>

  /** Every baseline was hashed when it was taken. */
  ghost predicate Hashed(base: Baselines) {
    forall id :: id in base ==> base[id].hash == StateHash(base[id].value)
  }

  /** What a payload's byte length is taken of. */
  datatype Payload = Full(run: Json) | Compact(run: Json, delta: RunStateDelta)

  const COMPACT_FROM := 4096

  function Snapshot(run: Option<Json>): Result<Option<RunStateSnapshot>, JournalError> {
    if run.None? || !run.value.Obj? || !HasRequired(run.value.fields) then Ok(None)
    else if ParseDemoRun(run.value).Err? then Err(RunRejected)
    else Ok(Some(RunStateSnapshot(NormalForm(run.value), StateHash(NormalForm(run.value)))))
  }

  lemma SnapshotHashed(run: Option<Json>)
    ensures match Snapshot(run)
            case Ok(Some(current)) => run.Some? && current.hash == StateHash(current.value)
            case Ok(None) => true
            case Err(e) => e == RunRejected
  {
  }

  const PROJECTION_FIELDS := {
    "runId", "threadId", "kernelId", "modelId", "providerModelId", "providerId", "agentVersionId",
    "globalAgentId", "globalAgentName", "teamId", "teamName", "resolutionSource", "credentialRefId",
    "contextWindow", "modelContextWindow", "contextWindowOverride", "effectiveContextWindow",
    "contextWindowSource", "kernelContextWindowLimit", "kernelSessionPlan", "retryCount"}

  function Projection(state: Json): Json {
    if state.Obj? then Obj(map k | k in PROJECTION_FIELDS && k in state.fields :: state.fields[k]) else state
  }

  /** A delta may replace the full state. */
  predicate Eligible(bytes: Payload -> nat, base: Baselines, draft: EventDraft, current: RunStateSnapshot)
    requires draft.runId.Some? && draft.run.Some?
  {
    && draft.runId.value in base
    && StringAt(base[draft.runId.value].value, "threadId") == StringAt(current.value, "threadId")
    && bytes(Full(draft.run.value)) >= COMPACT_FROM
  }

  /** The baselines after one event. */
  function BaseAfter(base: Baselines, draft: EventDraft): Baselines {
    var updated :=
      if Snapshot(draft.run).Ok? && Snapshot(draft.run).value.Some? && draft.runId.Some?
      then base[draft.runId.value := Snapshot(draft.run).value.value] else base;
    if Attributed(draft) && Terminal(draft.eventType) then updated - {draft.runId.value} else updated
  }

  function BaseAfterAll(base: Baselines, drafts: seq<EventDraft>): Baselines
    decreases |drafts|
  {
    if drafts == [] then base else BaseAfterAll(BaseAfter(base, drafts[0]), drafts[1..])
  }

  /** `out` is what staging writes for `draft`: the draft itself, or its projection
      and a delta from the baseline, and the latter only when that is smaller. */
  ghost predicate PreparedOne(bytes: Payload -> nat, base: Baselines, draft: EventDraft, out: EventDraft) {
    match Snapshot(draft.run)
    case Err(_) => false
    case Ok(None) => out == draft
    case Ok(Some(current)) =>
      && draft.runId.Some? && StringAt(current.value, "runId") == draft.runId
      && draft.delta.None?
      && (out == draft || CompactedTo(bytes, base, draft, current, out))
      && (out == draft && Eligible(bytes, base, draft, current) ==>
            exists d :: IsDiff(d, base[draft.runId.value].value, current.value)
                        && bytes(Compact(Projection(current.value), d)) >= bytes(Full(draft.run.value)))
  }

  ghost predicate CompactedTo(bytes: Payload -> nat, base: Baselines, draft: EventDraft,
                              current: RunStateSnapshot, out: EventDraft)
    requires draft.runId.Some? && draft.run.Some?
  {
    && Eligible(bytes, base, draft, current)
    && out.delta.Some?
    && out == draft.(run := Some(Projection(current.value)), delta := out.delta)
    && IsDiff(out.delta.value, base[draft.runId.value].value, current.value)
    && bytes(Compact(Projection(current.value), out.delta.value)) < bytes(Full(draft.run.value))
    && (DepthAtMost(base[draft.runId.value].value, MAX_PATH) && DepthAtMost(current.value, MAX_PATH) ==>
          forall i :: 0 <= i < |out.delta.value.operations| ==> ValidPath(out.delta.value.operations[i].path))
  }

  ghost predicate Prepared(bytes: Payload -> nat, base: Baselines, drafts: seq<EventDraft>, outs: seq<EventDraft>)
    decreases |drafts|
  {
    |outs| == |drafts| &&
    (drafts != [] ==> PreparedOne(bytes, base, drafts[0], outs[0])
                      && Prepared(bytes, BaseAfter(base, drafts[0]), drafts[1..], outs[1..]))
  }

  /** Why staging an event throws. */
  ghost predicate Refused(base: Baselines, event: EventDraft, error: JournalError) {
    match Snapshot(event.run)
    case Err(_) => error == RunRejected
    case Ok(None) => false
    case Ok(Some(current)) =>
      if event.runId.None? || StringAt(current.value, "runId") != event.runId then error == IdentityMismatch
      else if event.delta.Some? then error == ReservedField
      else
        && event.runId.value in base && error == DiffFailed(InvalidPath)
        && !Diffable(base[event.runId.value].value, current.value)
  }

  datatype StagedBatch = StagedBatch(events: seq<EventDraft>, snapshots: Baselines, revision: nat)

  class DemoRunPersistenceJournal {
    var snapshots: Baselines
    var revision: nat
    const bytes: Payload -> nat

    constructor (bytes: Payload -> nat)
      ensures this.bytes == bytes && snapshots == map[] && revision == 0
    {
      this.bytes := bytes;
      snapshots, revision := map[], 0;
    }

    ghost predicate Valid()
      reads this
    {
      Hashed(snapshots)
    }

    /** Prepares a batch against a copy of the baselines; the journal itself changes
        only when the batch is committed. */
    method Stage(events: seq<EventDraft>) returns (r: Result<StagedBatch, JournalError>)
      requires Valid()
      ensures r.Ok? ==>
                && r.value.revision == revision
                && Prepared(bytes, snapshots, events, r.value.events)
                && r.value.snapshots == BaseAfterAll(snapshots, events)
      ensures r.Ok? ==> Hashed(r.value.snapshots)
      ensures r.Err? ==> exists k :: 0 <= k < |events|
                                     && Refused(BaseAfterAll(snapshots, events[..k]), events[k], r.error)
    {
      hide PreparedOne, BaseAfter, Refused, Prepared, BaseAfterAll;
      var staged, prepared := snapshots, [];
      ghost var bases := [snapshots];
      for i := 0 to |events|
        invariant |prepared| == i && |bases| == i + 1 && bases[0] == snapshots && bases[i] == staged
        invariant forall k :: 0 <= k < i ==> bases[k + 1] == BaseAfter(bases[k], events[k])
        invariant forall k :: 0 <= k < i ==> PreparedOne(bytes, bases[k], events[k], prepared[k])
        invariant Hashed(staged)
      {
        var one := PrepareOne(staged, events[i]);
        if one.Err? {
          PreparedFromSteps(bytes, bases, events[..i], prepared);
          return Err(one.error);
        }
        prepared := prepared + [one.value];
        BaseAfterHashed(staged, events[i]);
        staged := BaseAfter(staged, events[i]);
        bases := bases + [staged];
      }
      PreparedFromSteps(bytes, bases, events, prepared);
      r := Ok(StagedBatch(prepared, staged, revision));
    }

    /** The closure `prepare`, without its update of the baselines. */
    method PrepareOne(base: Baselines, event: EventDraft) returns (r: Result<EventDraft, JournalError>)
      requires Hashed(base)
      ensures r.Ok? ==> PreparedOne(bytes, base, event, r.value)
      ensures r.Err? ==> Refused(base, event, r.error)
    {
      SnapshotHashed(event.run);
      hide Snapshot, Projection, DepthAtMost, ParseDemoRun, HasRequired, LeadsFromTo, ApplyEdits, ValidPath, EffortOf,
        Diffable, Deliverable, WithinLimits;
      var snapshot := Snapshot(event.run);
      if snapshot.Err? { return Err(snapshot.error); }
      if snapshot.value.None? { return Ok(event); }
      var current := snapshot.value.value;
      if event.runId.None? || StringAt(current.value, "runId") != event.runId { return Err(IdentityMismatch); }
      if event.delta.Some? { return Err(ReservedField); }
      if Eligible(bytes, base, event, current) {
        var delta := DiffRunStateSnapshots(base[event.runId.value], current);
        if delta.Err? { return Err(DiffFailed(delta.error)); }
        if bytes(Compact(Projection(current.value), delta.value)) < bytes(Full(event.run.value)) {
          return Ok(event.(run := Some(Projection(current.value)), delta := Some(delta.value)));
        }
      }
      r := Ok(event);
    }

    /** `checkpointWritten` forgets every baseline. A stage taken before any other
        change to the journal is refused. */
    method Commit(staged: StagedBatch, checkpointWritten: bool) returns (outcome: Outcome<JournalError>)
      requires Valid()
      requires Hashed(staged.snapshots)
      modifies this
      ensures Valid()
      ensures old(revision) != staged.revision ==>
                outcome == Fail(StaleStage) && snapshots == old(snapshots) && revision == old(revision)
      ensures old(revision) == staged.revision ==>
                outcome == Pass && revision == old(revision) + 1
                && snapshots == if checkpointWritten then map[] else staged.snapshots
    {
      if revision != staged.revision { return Fail(StaleStage); }
      snapshots := if checkpointWritten then map[] else staged.snapshots;
      revision := revision + 1;
      outcome := Pass;
    }

    method Forget(runId: string)
      requires Valid()
      modifies this
      ensures Valid() && snapshots == old(snapshots) - {runId}
      ensures revision == if runId in old(snapshots) then old(revision) + 1 else old(revision)
    {
      if runId in snapshots {
        snapshots := snapshots - {runId};
        revision := revision + 1;
      }
    }

    /** The `catch` of `rollbackOnFailure`: `saved` is the copy made before the
        operation that failed. */
    method RollBack(saved: Baselines)
      requires Hashed(saved)
      modifies this
      ensures Valid() && snapshots == saved && revision == old(revision) + 1
    {
      snapshots := saved;
      revision := revision + 1;
    }
  }

  lemma BaseAfterHashed(base: Baselines, draft: EventDraft)
    requires Hashed(base)
    ensures Hashed(BaseAfter(base, draft))
  {
    SnapshotHashed(draft.run);
    hide Snapshot;
  }

  lemma {:induction false} PreparedFromSteps(bytes: Payload -> nat, bases: seq<Baselines>, drafts: seq<EventDraft>,
                                             outs: seq<EventDraft>)
    requires |outs| == |drafts| && |bases| == |drafts| + 1
    requires forall k :: 0 <= k < |drafts| ==> bases[k + 1] == BaseAfter(bases[k], drafts[k])
    requires forall k :: 0 <= k < |drafts| ==> PreparedOne(bytes, bases[k], drafts[k], outs[k])
    ensures Prepared(bytes, bases[0], drafts, outs)
    ensures BaseAfterAll(bases[0], drafts) == bases[|drafts|]
    decreases |drafts|
  {
    if drafts != [] {
      hide BaseAfter, PreparedOne;
      PreparedFromSteps(bytes, bases[1..], drafts[1..], outs[1..]);
    }
  }

  // ------------------------------------------------------------------- replay

  datatype ReplayError = InvalidRunState | BaseMissing | WrongIdentity | DeltaRejected(error: DeltaError)

  type Runs = map<string, Json>

  function ParseForReplay(v: Json): Result<Json, ReplayError> {
    match ParseDemoRun(v)
    case Ok(run) => Ok(run)
    case Err(_) => Err(InvalidRunState)
  }

  /** The state that a delta event leads to. */
  function ApplyDeltaEvent(runs: Runs, id: string, d: RunStateDelta): Result<Json, ReplayError> {
    if id !in runs then Err(BaseMissing)
    else if StringAt(runs[id], "runId") != Some(id) then Err(WrongIdentity)
    else
      var reread :- ParseForReplay(SerializeDemoRun(runs[id]));
      match ApplyDelta(SerializeDemoRun(reread), d)
      case Err(e) => Err(DeltaRejected(e))
      case Ok(state) =>
        var next :- ParseForReplay(state);
        if StringAt(next, "runId") != Some(id) || StringAt(next, "threadId") != StringAt(runs[id], "threadId")
        then Err(WrongIdentity) else Ok(next)
  }

  /** `applyDemoRunEvent` */
  function ApplyEvent(runs: Runs, e: EventDraft): Result<Runs, ReplayError> {
    if !Attributed(e) then Ok(runs)
    else if Terminal(e.eventType) then Ok(runs - {e.runId.value})
    else if e.delta.Some? then
      var next :- ApplyDeltaEvent(runs, e.runId.value, e.delta.value);
      Ok(runs[e.runId.value := next])
    else if e.run.Some? then
      var run :- ParseForReplay(e.run.value);
      Ok(runs[e.runId.value := run])
    else Ok(runs)
  }

  function Replay(runs: Runs, events: seq<EventDraft>): Result<Runs, ReplayError>
    decreases |events|
  {
    if events == [] then Ok(runs)
    else
      var next :- ApplyEvent(runs, events[0]);
      Replay(next, events[1..])
  }

  /** The Map that a recovering runtime updates in place. */
  class RunProjection {
    var runs: Runs

    constructor (recovered: Runs)
      ensures runs == recovered
    {
      runs := recovered;
    }

    /** One event; the map is left alone when the event is refused. */
    method Apply(e: EventDraft) returns (outcome: Outcome<ReplayError>)
      modifies this
      ensures match ApplyEvent(old(runs), e)
              case Ok(next) => outcome == Pass && runs == next
              case Err(error) => outcome == Fail(error) && runs == old(runs)
      ensures e.runId.Some? && e.runId.value != ""
              && (e.eventType == "run.completed" || e.eventType == "run.failed" || e.eventType == "run.cancelled"
                  || e.eventType == "run.paused") ==>
                outcome == Pass && runs == old(runs) - {e.runId.value}
    {
      outcome := Pass;
      if !Attributed(e) { return; }
      var id := e.runId.value;
      if Terminal(e.eventType) {
        runs := runs - {id};
      } else if e.delta.Some? {
        var next := ApplyDeltaEvent(runs, id, e.delta.value);
        if next.Err? { return Fail(next.error); }
        runs := runs[id := next.value];
      } else if e.run.Some? {
        var run := ParseForReplay(e.run.value);
        if run.Err? { return Fail(run.error); }
        runs := runs[id := run.value];
      }
    }

    method ApplyAll(events: seq<EventDraft>) returns (outcome: Outcome<ReplayError>)
      modifies this
      ensures match Replay(old(runs), events)
              case Ok(last) => outcome == Pass && runs == last
              case Err(error) => outcome == Fail(error)
    {
      outcome := Pass;
      for i := 0 to |events|
        invariant outcome.Pass? && Replay(old(runs), events) == Replay(runs, events[i..])
      {
        assert events[i..][0] == events[i] && events[i..][1..] == events[i + 1..];
        outcome := Apply(events[i]);
        if outcome.Fail? { return; }
      }
    }
  }
}
