/** Every run of the journal against its log: the compacted log replays to the same
    runs as the log of full states. */
module JournalRuns {
  import opened Results
  import opened Json
  import opened RunStateDelta
  import opened RunStateDiff
  import opened DiffEffort
  import opened DemoRunForm
  import opened DemoRunNormalForm
  import opened RunJournal

  // -------------------------------------------------------- what replay relates

  /** Equal run by run once serialized. */
  ghost predicate Same(a: Runs, b: Runs) {
    a.Keys == b.Keys && forall id :: id in a ==> SerializeDemoRun(a[id]) == SerializeDemoRun(b[id])
  }

  /** A replayed run that the baseline `s` stands for: serialized, read back and
      serialized again it is the baseline. */
  ghost predicate Represents(s: RunStateSnapshot, id: string, run: Json) {
    && s.value.Obj? && s.hash == StateHash(s.value) && DepthAtMost(s.value, MAX_PATH)
    && StringAt(run, "runId") == Some(id)
    && StringAt(run, "threadId") == StringAt(s.value, "threadId")
    && SerializeDemoRun(run) == s.value
    && ParseDemoRun(s.value).Ok? && NormalForm(s.value) == s.value
  }

  /** Each baseline equals the normal form of that run in the replayed map. */
  ghost predicate Coherent(base: Baselines, runs: Runs) {
    forall id :: id in base && id != "" ==> id in runs && Represents(base[id], id, runs[id])
  }

  /** The two replays agree: on the runs, or in failing. */
  ghost predicate Agree(base: Baselines, full: Result<Runs, ReplayError>, compacted: Result<Runs, ReplayError>) {
    match (full, compacted)
    case (Ok(a), Ok(b)) => Same(a, b) && Coherent(base, b)
    case (Err(_), Err(_)) => true
    case _ => false
  }

  // ------------------------------------------------------- what drafts promise

  /** The limits under which a draft may be compacted: it does not carry the reserved
      field, its attempted models can be read back, its nesting is at most 128. */
  ghost predicate Admissible(draft: EventDraft) {
    && draft.delta.None?
    && (draft.run.Some? && ParseDemoRun(draft.run.value).Ok? ==>
          AttemptsFit(draft.run.value) && DepthAtMost(NormalForm(draft.run.value), MAX_PATH))
  }

  /** A baseline and a state of at most 100000 values together give such a delta. */
  lemma ModestFewOperations(bytes: Payload -> nat, base: Baselines, draft: EventDraft, out: EventDraft,
                            current: RunStateSnapshot)
    requires draft.runId.Some? && draft.run.Some? && CompactedTo(bytes, base, draft, current, out)
    requires Nodes(base[draft.runId.value].value) + Nodes(current.value) <= MAX_OPERATIONS
    ensures FewOperations(out)
  {
    SizeBounds(base[draft.runId.value].value, current.value);
    hide Nodes, EffortOf, LeadsFromTo, Projection, DepthAtMost, ValidPath;
  }

  /** What staging wrote, with every delta short enough to be applied. */
  predicate FewOperations(out: EventDraft) {
    out.delta.Some? ==> |out.delta.value.operations| <= MAX_OPERATIONS
  }

  // ------------------------------------------------------------ one event

  lemma IdentityKept(v: Json)
    requires ParseDemoRun(v).Ok?
    ensures StringAt(ParseDemoRun(v).value, "runId") == StringAt(v, "runId")
    ensures StringAt(ParseDemoRun(v).value, "threadId") == StringAt(v, "threadId")
    ensures StringAt(NormalForm(v), "runId") == StringAt(v, "runId")
    ensures StringAt(NormalForm(v), "threadId") == StringAt(v, "threadId")
  {
    RequiredParsed(v, "runId");
    RequiredParsed(v, "threadId");
    RequiredKept(v);
    hide *;
  }

  lemma RequiredKept(v: Json)
    requires ParseDemoRun(v).Ok?
    ensures StringAt(NormalForm(v), "runId") == StringAt(v, "runId")
    ensures StringAt(NormalForm(v), "threadId") == StringAt(v, "threadId")
  {
    hide ParseDemoRun, NormalForm, Durable;
    NormalFormFields(v);
    RequiredSurvive(v.fields, NormalForm(v).fields);
    hide HasRequired;
  }

  /** A required string is read as it is. */
  lemma RequiredParsed(v: Json, name: string)
    requires ParseDemoRun(v).Ok? && name in REQUIRED_STRINGS
    ensures StringAt(ParseDemoRun(v).value, name) == StringAt(v, name)
  {
    RequiredKinds();
    ParsedFields(v);
    hide KindOf, FieldNames, Durable, ParseDemoRun;
    assert ParseField(name, v.fields) == Present(v.fields[name]);
  }

  lemma ParsedFields(v: Json)
    requires ParseDemoRun(v).Ok?
    ensures v.Obj? && HasRequired(v.fields) && ParseDemoRun(v).value.Obj?
    ensures forall name :: Durable(name) && ParseField(name, v.fields).Present? ==>
              name in ParseDemoRun(v).value.fields
              && ParseDemoRun(v).value.fields[name] == ParseField(name, v.fields).value
  {
    hide ParseField, KindOf, FieldNames, HasRequired;
  }

  /** A full state stored by an event is represented by the baseline taken of it. */
  lemma FreshBaseline(draft: EventDraft)
    requires Admissible(draft) && Snapshot(draft.run).Ok? && Snapshot(draft.run).value.Some? && draft.runId.Some?
    requires StringAt(Snapshot(draft.run).value.value.value, "runId") == draft.runId
    ensures var s := Snapshot(draft.run).value.value;
            ParseDemoRun(draft.run.value).Ok?
            && Represents(s, draft.runId.value, ParseDemoRun(draft.run.value).value)
  {
    var v := draft.run.value;
    NormalFormStable(v);
    NormalFormFields(v);
    IdentityKept(v);
    hide ParseDemoRun, SerializeDemoRun, DepthAtMost, AttemptsFit, HasRequired;
  }

  /** A delta event leads a represented run to one that the new baseline represents. */
  lemma DeltaReplays(bytes: Payload -> nat, base: Baselines, draft: EventDraft, out: EventDraft, runs: Runs)
    requires Admissible(draft) && FewOperations(out) && Attributed(draft) && Coherent(base, runs)
    requires Snapshot(draft.run).Ok? && Snapshot(draft.run).value.Some?
    requires var current := Snapshot(draft.run).value.value;
             StringAt(current.value, "runId") == draft.runId && CompactedTo(bytes, base, draft, current, out)
    ensures var s := Snapshot(draft.run).value.value;
            var id := draft.runId.value;
            var next := ApplyDeltaEvent(runs, id, out.delta.value);
            next.Ok? && Represents(s, id, next.value)
  {
    hide ParseDemoRun, SerializeDemoRun, DepthAtMost, ApplyDelta, LeadsFromTo, EffortOf, Projection;
    var id, d := draft.runId.value, out.delta.value;
    var current := Snapshot(draft.run).value.value;
    var previous := base[id];
    FreshBaseline(draft);
    assert Represents(previous, id, runs[id]);
    assert Represents(current, id, ParseDemoRun(draft.run.value).value);
    RereadIsBaseline(previous, id, runs[id]);
    IdentityKept(current.value);
    DeltaStep(previous, current, d);
    hide Snapshot, CompactedTo, Eligible;
  }

  lemma RereadIsBaseline(s: RunStateSnapshot, id: string, run: Json)
    requires Represents(s, id, run)
    ensures ParseDemoRun(SerializeDemoRun(run)).Ok?
    ensures SerializeDemoRun(ParseDemoRun(SerializeDemoRun(run)).value) == s.value
  {
    hide ParseDemoRun, SerializeDemoRun, DepthAtMost;
  }

  lemma DeltaStep(previous: RunStateSnapshot, current: RunStateSnapshot, d: RunStateDelta)
    requires LeadsFromTo(d, previous.value, current.value) && |d.operations| <= MAX_OPERATIONS
    requires previous.value.Obj? && current.value.Obj?
    requires DepthAtMost(previous.value, MAX_PATH) && DepthAtMost(current.value, MAX_PATH)
    requires forall i :: 0 <= i < |d.operations| ==> ValidPath(d.operations[i].path)
    ensures ApplyDelta(previous.value, d) == Ok(current.value)
  {
    RoundTrip(d, previous.value, current.value);
  }

  /** Replaying one event from the full and from the compacted log. */
  lemma EventReplays(bytes: Payload -> nat, base: Baselines, draft: EventDraft, out: EventDraft, a: Runs, b: Runs)
    requires Admissible(draft) && FewOperations(out) && PreparedOne(bytes, base, draft, out)
    requires Same(a, b) && Coherent(base, b)
    ensures Agree(BaseAfter(base, draft), ApplyEvent(a, draft), ApplyEvent(b, out))
  {
    if !Attributed(draft) || Terminal(draft.eventType) {
      UnappliedEvent(bytes, base, draft, out, a, b);
    } else if Snapshot(draft.run).value.None? {
      StatelessEvent(base, draft, a, b);
    } else {
      StatefulEvent(bytes, base, draft, out, a, b);
    }
  }

  lemma UnappliedEvent(bytes: Payload -> nat, base: Baselines, draft: EventDraft, out: EventDraft, a: Runs, b: Runs)
    requires PreparedOne(bytes, base, draft, out) && Same(a, b) && Coherent(base, b)
    requires !Attributed(draft) || Terminal(draft.eventType)
    ensures Agree(BaseAfter(base, draft), ApplyEvent(a, draft), ApplyEvent(b, out))
  {
    hide Snapshot, Eligible, LeadsFromTo, DepthAtMost, ValidPath;
    hide ParseDemoRun, SerializeDemoRun, Represents, Projection;
    assert out.runId == draft.runId && out.eventType == draft.eventType;
  }

  /** No baseline is taken exactly when the full state, if any, is refused by replay. */
  lemma StatelessEvent(base: Baselines, draft: EventDraft, a: Runs, b: Runs)
    requires draft.delta.None? && Snapshot(draft.run) == Ok(None) && Same(a, b) && Coherent(base, b)
    requires Attributed(draft) && !Terminal(draft.eventType)
    ensures Agree(BaseAfter(base, draft), ApplyEvent(a, draft), ApplyEvent(b, draft))
  {
    if draft.run.Some? { assert ParseDemoRun(draft.run.value).Err?; }
    hide ParseDemoRun, SerializeDemoRun, Represents, HasRequired;
  }

  lemma StatefulEvent(bytes: Payload -> nat, base: Baselines, draft: EventDraft, out: EventDraft, a: Runs, b: Runs)
    requires Admissible(draft) && FewOperations(out) && PreparedOne(bytes, base, draft, out)
    requires Same(a, b) && Coherent(base, b)
    requires Attributed(draft) && !Terminal(draft.eventType) && Snapshot(draft.run).value.Some?
    ensures Agree(BaseAfter(base, draft), ApplyEvent(a, draft), ApplyEvent(b, out))
  {
    hide Same, Coherent, Admissible, FewOperations, Represents, ParseDemoRun, Eligible, LeadsFromTo, Projection,
      DepthAtMost, SerializeDemoRun, ApplyDeltaEvent, ValidPath, EffortOf, Terminal;
    var id := draft.runId.value;
    var s := Snapshot(draft.run).value.value;
    FreshBaseline(draft);
    var full := ParseDemoRun(draft.run.value).value;
    var compacted := full;
    if out != draft {
      DeltaReplays(bytes, base, draft, out, b);
      compacted := ApplyDeltaEvent(b, id, out.delta.value).value;
    }
    assert Represents(s, id, full) && Represents(s, id, compacted);
    StateApplied(base, draft, a);
    assert ApplyEvent(b, out) == Ok(b[id := compacted]) by {
      if out == draft { StateApplied(base, draft, b); }
    }
    RepresentedAlike(s, id, full, compacted);
    RunStored(base, id, s, a, b, full, compacted);
    hide Same, Coherent, ApplyEvent, BaseAfter, Snapshot;
  }

  lemma RunStored(base: Baselines, id: string, s: RunStateSnapshot, a: Runs, b: Runs, full: Json, compacted: Json)
    requires Same(a, b) && Coherent(base, b)
    requires SerializeDemoRun(full) == SerializeDemoRun(compacted) && Represents(s, id, compacted)
    ensures Same(a[id := full], b[id := compacted]) && Coherent(base[id := s], b[id := compacted])
  {
    hide SerializeDemoRun, Represents;
  }

  /** A full state replaces the run, in replay and among the baselines. */
  lemma StateApplied(base: Baselines, draft: EventDraft, runs: Runs)
    requires Attributed(draft) && !Terminal(draft.eventType) && draft.delta.None?
    requires Snapshot(draft.run).Ok? && Snapshot(draft.run).value.Some?
    ensures ParseDemoRun(draft.run.value).Ok?
    ensures ApplyEvent(runs, draft) == Ok(runs[draft.runId.value := ParseDemoRun(draft.run.value).value])
    ensures BaseAfter(base, draft) == base[draft.runId.value := Snapshot(draft.run).value.value]
  {
    hide ParseDemoRun, HasRequired, NormalForm;
  }

  lemma RepresentedAlike(s: RunStateSnapshot, id: string, x: Json, y: Json)
    requires Represents(s, id, x) && Represents(s, id, y)
    ensures SerializeDemoRun(x) == SerializeDemoRun(y)
  {
    hide SerializeDemoRun, DepthAtMost, ParseDemoRun;
  }

  // ------------------------------------------------------------ whole batches

  ghost predicate AllAdmissible(drafts: seq<EventDraft>) {
    forall i :: 0 <= i < |drafts| ==> Admissible(drafts[i])
  }

  ghost predicate AllFewOperations(outs: seq<EventDraft>) {
    forall i :: 0 <= i < |outs| ==> FewOperations(outs[i])
  }

  lemma {:induction false} BatchReplays(bytes: Payload -> nat, base: Baselines, drafts: seq<EventDraft>,
                                        outs: seq<EventDraft>, a: Runs, b: Runs)
    requires AllAdmissible(drafts) && AllFewOperations(outs) && Prepared(bytes, base, drafts, outs)
    requires Same(a, b) && Coherent(base, b)
    ensures Agree(BaseAfterAll(base, drafts), Replay(a, drafts), Replay(b, outs))
    decreases |drafts|
  {
    if drafts != [] {
      EventReplays(bytes, base, drafts[0], outs[0], a, b);
      hide PreparedOne, BaseAfter, ApplyEvent, Same, Coherent, Admissible, FewOperations;
      if ApplyEvent(a, drafts[0]).Ok? {
        BatchReplays(bytes, BaseAfter(base, drafts[0]), drafts[1..], outs[1..],
                     ApplyEvent(a, drafts[0]).value, ApplyEvent(b, outs[0]).value);
      }
    }
  }

  lemma {:induction false} ReplayConcat(runs: Runs, first: seq<EventDraft>, second: seq<EventDraft>)
    ensures Replay(runs, first + second) ==
            (match Replay(runs, first) case Ok(next) => Replay(next, second) case Err(e) => Err(e))
    decreases |first|
  {
    hide ApplyEvent;
    if first == [] {
      assert first + second == second;
    } else {
      assert (first + second)[1..] == first[1..] + second;
      if ApplyEvent(runs, first[0]).Ok? {
        ReplayConcat(ApplyEvent(runs, first[0]).value, first[1..], second);
      }
    }
  }

  // ------------------------------------------------------ the journal in a world

  /** The log since the last checkpoint, written in full and as staged, with the runs
      that recovery starts from; and the baselines of the journal. */
  datatype Ledger = Ledger(start: Runs, original: seq<EventDraft>, compacted: seq<EventDraft>, baselines: Baselines)

  datatype Stage = Stage(base: Baselines, drafts: seq<EventDraft>, batch: StagedBatch)

  /** `saved` holds what the open transactions would restore, outermost first. */
  datatype World = World(durable: Ledger, revision: nat, saved: seq<Ledger>, stages: seq<Stage>)

  predicate Stateless(e: EventDraft) {
    e.run.None? && e.delta.None?
  }

  /** `recordCommittedEvents`: the runs that ended are forgotten. */
  function ForgetEnded(base: Baselines, events: seq<EventDraft>): Baselines
    decreases |events|
  {
    if events == [] then base
    else
      var e := events[0];
      ForgetEnded(if Attributed(e) && Terminal(e.eventType) then base - {e.runId.value} else base, events[1..])
  }

  predicate Initial(w: World) {
    w.durable.original == [] && w.durable.compacted == [] && w.durable.baselines == map[]
    && w.saved == [] && w.stages == []
  }

  datatype Action =
    | StageBatch(drafts: seq<EventDraft>, batch: StagedBatch)
    | CommitStage(stage: nat)
    | CommitWithCheckpoint(stage: nat, recovered: Runs)
    | AppendStateless(events: seq<EventDraft>)
    | ForgetRun(runId: string)
    | Begin
    | Succeed
    | Fail
    | Abandon
    | Restart

  /** The steps, one for each way the runtime drives the journal. A unit of work that fails
      restores the baselines (`Fail`), unless it is run without the journal, as those units are
      that stage no state (`Abandon`): then only the rows go back. A restart finds the rows of
      the store and an empty journal; what was not yet committed is lost. */
  ghost predicate Next(bytes: Payload -> nat, w: World, action: Action, w': World) {
    var d := w.durable;
    match action
    case StageBatch(drafts, batch) =>
      && AllAdmissible(drafts) && AllFewOperations(batch.events)
      && Prepared(bytes, d.baselines, drafts, batch.events)
      && batch.snapshots == BaseAfterAll(d.baselines, drafts) && batch.revision == w.revision
      && w' == w.(stages := w.stages + [Stage(d.baselines, drafts, batch)])
    case CommitStage(i) =>
      i < |w.stages| &&
      (if w.stages[i].batch.revision != w.revision then w' == w
       else w' == w.(revision := w.revision + 1,
                     durable := Ledger(d.start, d.original + w.stages[i].drafts,
                                        d.compacted + w.stages[i].batch.events, w.stages[i].batch.snapshots)))
    case CommitWithCheckpoint(i, recovered) =>
      i < |w.stages| &&
      (if w.stages[i].batch.revision != w.revision then w' == w
       else w' == w.(revision := w.revision + 1, durable := Ledger(recovered, [], [], map[])))
    case AppendStateless(events) =>
      && (forall i :: 0 <= i < |events| ==> Stateless(events[i]))
      && var kept := ForgetEnded(d.baselines, events);
         && |kept| <= |d.baselines|
         && w' == w.(revision := w.revision + (|d.baselines| - |kept|),
                     durable := Ledger(d.start, d.original + events, d.compacted + events, kept))
    case ForgetRun(id) =>
      w' == w.(revision := if id in d.baselines then w.revision + 1 else w.revision,
               durable := d.(baselines := d.baselines - {id}))
    case Begin => w' == w.(saved := w.saved + [d])
    case Succeed => w.saved != [] && w' == w.(saved := w.saved[..|w.saved| - 1])
    case Fail =>
      w.saved != [] &&
      w' == w.(saved := w.saved[..|w.saved| - 1], durable := w.saved[|w.saved| - 1], revision := w.revision + 1)
    case Abandon =>
      && w.saved != [] && OnlyDropped(d.baselines, w.saved[|w.saved| - 1].baselines)
      && w' == w.(saved := w.saved[..|w.saved| - 1],
                  durable := w.saved[|w.saved| - 1].(baselines := d.baselines))
    case Restart =>
      w' == World((if w.saved == [] then d else w.saved[0]).(baselines := map[]), 0, [], [])
  }

  /** No state has been staged since: baselines were only dropped. */
  ghost predicate OnlyDropped(base: Baselines, older: Baselines) {
    forall id :: id in base ==> id in older && base[id] == older[id]
  }

  // ---------------------------------------------------------------- invariants

  ghost predicate Faithful(d: Ledger) {
    && Agree(d.baselines, Replay(d.start, d.original), Replay(d.start, d.compacted))
    && (forall i :: 0 <= i < |d.original| ==> d.original[i].delta.None?)
  }

  ghost predicate SoundStage(bytes: Payload -> nat, w: World, s: Stage) {
    && AllAdmissible(s.drafts) && AllFewOperations(s.batch.events)
    && Prepared(bytes, s.base, s.drafts, s.batch.events)
    && s.batch.snapshots == BaseAfterAll(s.base, s.drafts)
    && s.batch.revision <= w.revision
    && (s.batch.revision == w.revision ==> s.base == w.durable.baselines)
  }

  ghost predicate Invariant(bytes: Payload -> nat, w: World) {
    && Faithful(w.durable)
    && (forall i :: 0 <= i < |w.saved| ==> Faithful(w.saved[i]))
    && (forall i :: 0 <= i < |w.stages| ==> SoundStage(bytes, w, w.stages[i]))
  }

  lemma InitiallyFaithful(bytes: Payload -> nat, w: World)
    requires Initial(w)
    ensures Invariant(bytes, w)
  {
  }

  /** More events keep the logs in step if they replay alike from where the logs end. */
  lemma LogsGrow(d: Ledger, more: seq<EventDraft>, written: seq<EventDraft>, kept: Baselines)
    requires Faithful(d) && forall i :: 0 <= i < |more| ==> more[i].delta.None?
    requires var a, b := Replay(d.start, d.original), Replay(d.start, d.compacted);
             a.Ok? && b.Ok? ==> Agree(kept, Replay(a.value, more), Replay(b.value, written))
    ensures Faithful(Ledger(d.start, d.original + more, d.compacted + written, kept))
  {
    hide Replay, Same, Coherent;
    ReplayConcat(d.start, d.original, more);
    ReplayConcat(d.start, d.compacted, written);
  }

  /** Committing a sound stage that is not outdated keeps the logs in step. */
  lemma CommitKeepsFaithful(bytes: Payload -> nat, w: World, s: Stage)
    requires Faithful(w.durable) && SoundStage(bytes, w, s) && s.batch.revision == w.revision
    ensures Faithful(Ledger(w.durable.start, w.durable.original + s.drafts,
                             w.durable.compacted + s.batch.events, s.batch.snapshots))
  {
    hide Replay, Same, Coherent, Prepared, BaseAfterAll, AllFewOperations;
    var d := w.durable;
    var a, b := Replay(d.start, d.original), Replay(d.start, d.compacted);
    if a.Ok? && b.Ok? { BatchReplays(bytes, d.baselines, s.drafts, s.batch.events, a.value, b.value); }
    forall i | 0 <= i < |s.drafts| ensures s.drafts[i].delta.None? { assert Admissible(s.drafts[i]); }
    hide Faithful, Agree;
    LogsGrow(d, s.drafts, s.batch.events, s.batch.snapshots);
  }

  lemma {:induction false} StatelessReplays(base: Baselines, events: seq<EventDraft>, a: Runs, b: Runs)
    requires (forall i :: 0 <= i < |events| ==> Stateless(events[i])) && Same(a, b) && Coherent(base, b)
    ensures Agree(ForgetEnded(base, events), Replay(a, events), Replay(b, events))
    decreases |events|
  {
    hide SerializeDemoRun, Represents;
    if events != [] {
      var e := events[0];
      assert Stateless(e);
      var kept := if Attributed(e) && Terminal(e.eventType) then base - {e.runId.value} else base;
      StatelessReplays(kept, events[1..], ApplyEvent(a, e).value, ApplyEvent(b, e).value);
    }
  }

  lemma {:induction false} ForgetEndedShrinks(base: Baselines, events: seq<EventDraft>)
    ensures |ForgetEnded(base, events)| <= |base|
    ensures |ForgetEnded(base, events)| == |base| ==> ForgetEnded(base, events) == base
    decreases |events|
  {
    if events != [] {
      var e := events[0];
      var kept := if Attributed(e) && Terminal(e.eventType) then base - {e.runId.value} else base;
      ForgetEndedShrinks(kept, events[1..]);
      if kept != base {
        assert kept.Keys == base.Keys - {e.runId.value};
        assert e.runId.value !in base ==> kept == base;
        assert |kept| == |kept.Keys| && |base| == |base.Keys|;
      }
    }
  }

  lemma AppendKeepsFaithful(d: Ledger, events: seq<EventDraft>)
    requires Faithful(d) && forall i :: 0 <= i < |events| ==> Stateless(events[i])
    ensures Faithful(Ledger(d.start, d.original + events, d.compacted + events, ForgetEnded(d.baselines, events)))
  {
    hide Replay, ForgetEnded, Same, Coherent;
    var a, b := Replay(d.start, d.original), Replay(d.start, d.compacted);
    if a.Ok? && b.Ok? { StatelessReplays(d.baselines, events, a.value, b.value); }
    forall i | 0 <= i < |events| ensures events[i].delta.None? { assert Stateless(events[i]); }
    hide Faithful, Agree;
    LogsGrow(d, events, events, ForgetEnded(d.baselines, events));
  }

  lemma FewerBaselines(d: Ledger, kept: Baselines)
    requires Faithful(d) && OnlyDropped(kept, d.baselines)
    ensures Faithful(d.(baselines := kept))
  {
    hide Replay, Same, Represents;
  }

  /** Every step keeps the logs of all ledgers in step. */
  lemma StepKeepsFaithful(bytes: Payload -> nat, w: World, action: Action, w': World)
    requires Invariant(bytes, w) && Next(bytes, w, action, w')
    ensures Faithful(w'.durable) && forall i :: 0 <= i < |w'.saved| ==> Faithful(w'.saved[i])
  {
    hide Prepared, BaseAfterAll, AllAdmissible, AllFewOperations, Faithful, ForgetEnded, Stateless, SoundStage;
    match action
    case StageBatch(drafts, batch) =>
    case CommitStage(i) =>
      if w.stages[i].batch.revision == w.revision {
        assert SoundStage(bytes, w, w.stages[i]);
        CommitKeepsFaithful(bytes, w, w.stages[i]);
      }
    case CommitWithCheckpoint(i, recovered) => CheckpointFaithful(recovered);
    case AppendStateless(events) => AppendKeepsFaithful(w.durable, events);
    case ForgetRun(id) => FewerBaselines(w.durable, w.durable.baselines - {id});
    case Begin =>
    case Succeed =>
    case Fail =>
    case Abandon => FewerBaselines(w.saved[|w.saved| - 1], w.durable.baselines);
    case Restart => FewerBaselines(if w.saved == [] then w.durable else w.saved[0], map[]);
  }

  /** Every change of the baselines outdates the open stages. */
  lemma StepKeepsStages(bytes: Payload -> nat, w: World, action: Action, w': World)
    requires Invariant(bytes, w) && Next(bytes, w, action, w')
    ensures forall i :: 0 <= i < |w'.stages| ==> SoundStage(bytes, w', w'.stages[i])
  {
    hide Prepared, BaseAfterAll, AllAdmissible, AllFewOperations, Faithful, ForgetEnded, Stateless, OnlyDropped;
    match action
    case AppendStateless(events) => ForgetEndedShrinks(w.durable.baselines, events);
    case ForgetRun(id) => assert id !in w.durable.baselines ==> w.durable.baselines - {id} == w.durable.baselines;
    case _ =>
  }

  lemma StepKeepsInvariant(bytes: Payload -> nat, w: World, action: Action, w': World)
    requires Invariant(bytes, w) && Next(bytes, w, action, w')
    ensures Invariant(bytes, w')
  {
    hide Next, Faithful, SoundStage;
    StepKeepsFaithful(bytes, w, action, w');
    StepKeepsStages(bytes, w, action, w');
  }

  lemma CheckpointFaithful(recovered: Runs)
    ensures Faithful(Ledger(recovered, [], [], map[]))
  {
  }

  /** A run of the journal: worlds linked by steps. */
  ghost predicate IsRun(bytes: Payload -> nat, worlds: seq<World>, actions: seq<Action>) {
    && |worlds| == |actions| + 1 && Initial(worlds[0])
    && forall i :: 0 <= i < |actions| ==> Next(bytes, worlds[i], actions[i], worlds[i + 1])
  }

  lemma {:induction false} InvariantOnRuns(bytes: Payload -> nat, worlds: seq<World>, actions: seq<Action>)
    requires IsRun(bytes, worlds, actions)
    ensures Invariant(bytes, worlds[|actions|])
    decreases |actions|
  {
    hide Next, Invariant;
    if actions == [] {
      InitiallyFaithful(bytes, worlds[0]);
    } else {
      var n := |actions| - 1;
      InvariantOnRuns(bytes, worlds[..n + 1], actions[..n]);
      StepKeepsInvariant(bytes, worlds[n], actions[n], worlds[n + 1]);
    }
  }

  /** Replay of a log of full states fails only on a state that is not acceptable. */
  lemma {:induction false} FullLogReplays(runs: Runs, events: seq<EventDraft>)
    requires forall i :: 0 <= i < |events| ==>
               events[i].delta.None? && (events[i].run.Some? ==> ParseDemoRun(events[i].run.value).Ok?)
    ensures Replay(runs, events).Ok?
    decreases |events|
  {
    hide ParseDemoRun;
    if events != [] { FullLogReplays(ApplyEvent(runs, events[0]).value, events[1..]); }
  }

  /** Over every run of the journal, the compacted log since the last checkpoint
      replays exactly when the full one does, to the same runs, and every baseline is
      the normal form of its run there. Full states that parse never fail. */
  lemma ReplayEquivalence(bytes: Payload -> nat, worlds: seq<World>, actions: seq<Action>)
    requires IsRun(bytes, worlds, actions)
    ensures var d := worlds[|actions|].durable;
            var full, compacted := Replay(d.start, d.original), Replay(d.start, d.compacted);
            && (full.Ok? <==> compacted.Ok?)
            && (full.Ok? ==> Same(full.value, compacted.value) && Coherent(d.baselines, compacted.value))
            && ((forall i :: 0 <= i < |d.original| ==>
                   (d.original[i].run.Some? ==> ParseDemoRun(d.original[i].run.value).Ok?)) ==> compacted.Ok?)
  {
    InvariantOnRuns(bytes, worlds, actions);
    var d := worlds[|actions|].durable;
    assert Faithful(d);
    if forall i :: 0 <= i < |d.original| ==>
         (d.original[i].run.Some? ==> ParseDemoRun(d.original[i].run.value).Ok?) {
      FullLogReplays(d.start, d.original);
    }
    hide Replay, Same, Coherent, ParseDemoRun;
  }
}
