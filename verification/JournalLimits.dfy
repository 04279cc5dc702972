/** Why the journal's guarantee needs its hypotheses: drafts that break them make the
    compacted log unreadable where the log of full states is not. */
module JournalLimits {
  import opened Results
  import opened Json
  import opened Ordering
  import opened RunStateDelta
  import opened RunStateDiff
  import opened DiffEffort
  import opened DemoRunForm
  import opened DemoRunNormalForm
  import opened RunJournal
  import opened JournalRuns

  // ------------------------------------------------- what a compacted event needs

  /** A run that was read with too many attempted models takes no delta any more. */
  lemma OverflowTakesNoDelta(v: Json, runs: Runs, id: string, d: RunStateDelta)
    requires ParseDemoRun(v).Ok? && !AttemptsFit(v) && id in runs && SerializeDemoRun(runs[id]) == NormalForm(v)
    ensures ApplyDeltaEvent(runs, id, d).Err?
  {
    NormalFormStable(v);
    hide ParseDemoRun, SerializeDemoRun, NormalForm, ApplyDelta, AttemptsFit;
  }

  /** The state `v` was read and became the baseline. The delta of the next state, `w`, can be
      replayed if and only if both are within the limit on attempted models and the diff
      between them is within the limits on deltas. */
  lemma DeltaExactly(v: Json, w: Json, runs: Runs, id: string, d: RunStateDelta)
    requires ParseDemoRun(v).Ok? && ParseDemoRun(w).Ok?
    requires id in runs && SerializeDemoRun(runs[id]) == NormalForm(v)
    requires StringAt(runs[id], "runId") == StringAt(w, "runId") == Some(id)
    requires StringAt(runs[id], "threadId") == StringAt(w, "threadId")
    requires IsDiff(d, NormalForm(v), NormalForm(w))
    ensures ApplyDeltaEvent(runs, id, d).Ok? <==>
            AttemptsFit(v) && AttemptsFit(w) && Deliverable(NormalForm(v), NormalForm(w))
  {
    hide ParseDemoRun, SerializeDemoRun, NormalForm, ApplyDelta, AttemptsFit, Deliverable, LeadsFromTo, EffortOf,
      WithinLimits, HasRequired, Durable, StoredAs;
    NormalFormStable(v);
    NormalFormFields(v);
    NormalFormStable(w);
    NormalFormFields(w);
    DeliveredExactly(d, NormalForm(v), NormalForm(w));
    if AttemptsFit(v) {
      RereadForm(NormalForm(v));
      if AttemptsFit(w) { ReadIdentity(w); }
    } else {
      OverflowTakesNoDelta(v, runs, id, d);
    }
  }

  lemma RereadForm(s: Json)
    requires ParseDemoRun(s).Ok?
    ensures SerializeDemoRun(ParseDemoRun(s).value) == NormalForm(s)
  {
    hide ParseDemoRun, SerializeDemoRun;
  }

  /** A state read from its normal form names the same run. */
  lemma ReadIdentity(w: Json)
    requires ParseDemoRun(w).Ok? && ParseDemoRun(NormalForm(w)).Ok?
    ensures StringAt(ParseDemoRun(NormalForm(w)).value, "runId") == StringAt(w, "runId")
    ensures StringAt(ParseDemoRun(NormalForm(w)).value, "threadId") == StringAt(w, "threadId")
  {
    hide ParseDemoRun, NormalForm, StringAt;
    IdentityKept(w);
    IdentityKept(NormalForm(w));
  }

  lemma DeliveredExactly(d: RunStateDelta, previous: Json, next: Json)
    requires IsDiff(d, previous, next) && previous.Obj? && next.Obj?
    ensures ApplyDelta(previous, d) == Ok(next) || ApplyDelta(previous, d).Err?
    ensures ApplyDelta(previous, d).Ok? <==> Deliverable(previous, next)
  {
    RoundTrip(d, previous, next);
    hide ApplyDelta, WithinLimits, Deliverable, ApplyEdits;
    if ApplyDelta(previous, d).Ok? {
      FencedByHashes(previous, previous, d, ApplyDelta(previous, d).value);
    }
  }

  /** The same for an event and what staging wrote for it. The full state can be replayed in
      any case. */
  lemma CompactedExactly(bytes: Payload -> nat, base: Baselines, v: Json, draft: EventDraft, out: EventDraft,
                         runs: Runs)
    requires Attributed(draft) && !Terminal(draft.eventType) && draft.delta.None? && draft.run.Some?
    requires Snapshot(draft.run).Ok? && Snapshot(draft.run).value.Some?
    requires var current := Snapshot(draft.run).value.value;
             StringAt(current.value, "runId") == draft.runId && CompactedTo(bytes, base, draft, current, out)
    requires ParseDemoRun(v).Ok? && StringAt(v, "runId") == draft.runId
    requires var id := draft.runId.value;
             base[id].value == NormalForm(v) && id in runs && runs[id] == ParseDemoRun(v).value
    ensures ParseDemoRun(draft.run.value).Ok? && ApplyEvent(runs, draft).Ok?
    ensures ApplyEvent(runs, out).Ok? <==>
            && AttemptsFit(v) && AttemptsFit(draft.run.value)
            && Deliverable(NormalForm(v), NormalForm(draft.run.value))
  {
    hide ParseDemoRun, SerializeDemoRun, NormalForm, ApplyDelta, AttemptsFit, Deliverable, LeadsFromTo, EffortOf,
      WithinLimits, HasRequired, Projection, IsDiff, DepthAtMost, ApplyDeltaEvent;
    SnapshotForm(draft.run);
    StateApplied(base, draft, runs);
    IdentityKept(v);
    IdentityKept(draft.run.value);
    RereadForm(v);
    DeltaExactly(v, draft.run.value, runs, draft.runId.value, out.delta.value);
  }

  lemma SnapshotForm(run: Option<Json>)
    requires Snapshot(run).Ok? && Snapshot(run).value.Some?
    ensures run.Some? && ParseDemoRun(run.value).Ok? && Snapshot(run).value.value.value == NormalForm(run.value)
  {
    hide ParseDemoRun, NormalForm, HasRequired;
  }

  // -------------------------------------------------------- too many attempts

  function Names(n: nat): seq<string> {
    seq(n, i requires 0 <= i < n => seq(i, _ => 'a'))
  }

  lemma NamesDiffer(n: nat)
    ensures NoRepeats(Names(n) + ["m"]) && |Names(n) + ["m"]| == n + 1
  {
    var all := Names(n) + ["m"];
    forall i, j | 0 <= i < j < |all| ensures all[i] != all[j] {
      assert all[i] == Names(n)[i] && |all[i]| == i;
      if j < n {
        assert all[j] == Names(n)[j] && |all[j]| == j;
      } else if i == 1 {
        assert all[i][0] == 'a' && all[j][0] == 'm';
      }
    }
  }

  /** A run with 256 attempted models, none of them its own. */
  function Crowded(): map<string, Json> {
    map["runId" := Str("r"), "threadId" := Str("t"), "userText" := Str(""), "modelId" := Str("m"),
        "assistantText" := Str(""), "nextAdapterEventIndex" := Num(0.0),
        "attemptedModelIds" := StrList(Names(MAX_ATTEMPTS))]
  }

  lemma CrowdedRequired()
    ensures HasRequired(Crowded())
    ensures Crowded()["modelId"] == Str("m") && Crowded()["attemptedModelIds"] == StrList(Names(MAX_ATTEMPTS))
  {
    hide StrList, Names;
  }

  lemma CrowdedAttempts()
    ensures HasRequired(Crowded()) && Attempts(Crowded()) == Some(Names(MAX_ATTEMPTS) + ["m"])
  {
    var names := Names(MAX_ATTEMPTS);
    CrowdedRequired();
    NamesDiffer(MAX_ATTEMPTS);
    UniqueFixed(names + ["m"]);
    StringsRead(names);
    OwnNotListed(names);
    hide Names, Unique, Strings, StrList, NoRepeats, Crowded, HasRequired;
  }

  lemma OwnNotListed(names: seq<string>)
    requires NoRepeats(names + ["m"])
    ensures "m" !in names
  {
    forall i | 0 <= i < |names| ensures names[i] != "m" {
      assert (names + ["m"])[i] != (names + ["m"])[|names|];
    }
  }

  lemma KindOnly(name: string)
    ensures KindOf(name).RequiredString? <==> name in REQUIRED_STRINGS
    ensures KindOf(name).RequiredNumber? <==> name == "nextAdapterEventIndex"
    ensures KindOf(name).AttemptedModels? <==> name == "attemptedModelIds"
  {
  }

  /** Only required fields may not be missing. */
  lemma MissingOwn(kind: Kind)
    requires !kind.RequiredString? && !kind.RequiredNumber?
    ensures !ParseOwn(kind, None).Rejected?
  {
  }

  lemma CrowdedField(name: string)
    ensures HasRequired(Crowded()) && !ParseField(name, Crowded()).Rejected?
  {
    CrowdedAttempts();
    KindOnly(name);
    hide KindOf, Attempts, Names;
    if name !in Crowded() {
      MissingOwn(KindOf(name));
      hide ParseOwn, HasRequired;
    }
  }

  /** The bound on attempted models is needed: this run is accepted, but its normal form
      is not. */
  lemma CrowdedRun()
    ensures ParseDemoRun(Obj(Crowded())).Ok? && !AttemptsFit(Obj(Crowded()))
    ensures ParseDemoRun(NormalForm(Obj(Crowded()))).Err?
  {
    CrowdedAttempts();
    NamesDiffer(MAX_ATTEMPTS);
    forall name ensures !ParseField(name, Crowded()).Rejected? {
      CrowdedField(name);
    }
    hide ParseField, KindOf, FieldNames, Attempts;
    assert ParseDemoRun(Obj(Crowded())).Ok?;
    NormalFormStable(Obj(Crowded()));
  }

  // -------------------------------------------------- a delta that was not staged

  /** A draft that carries a delta but no state passes staging untouched and leaves the
      baseline as it is. */
  lemma UndeclaredDeltaPasses(bytes: Payload -> nat, base: Baselines, draft: EventDraft, out: EventDraft)
    requires draft.run.None? && draft.delta.Some? && !Terminal(draft.eventType)
    ensures PreparedOne(bytes, base, draft, out) <==> out == draft
    ensures BaseAfter(base, draft) == base
  {
  }

  /** What such a delta does to a run: `state` is what it makes of the baseline. */
  lemma UndeclaredDeltaMoves(base: RunStateSnapshot, id: string, e: EventDraft, runs: Runs, state: Json)
    requires e.runId == Some(id) && Attributed(e) && !Terminal(e.eventType) && e.delta.Some?
    requires id in runs && Represents(base, id, runs[id])
    requires ApplyDelta(base.value, e.delta.value) == Ok(state) && ParseDemoRun(state).Ok? && AttemptsFit(state)
    requires DepthAtMost(NormalForm(state), MAX_PATH)
    requires StringAt(state, "runId") == Some(id) && StringAt(state, "threadId") == StringAt(base.value, "threadId")
    ensures ApplyEvent(runs, e) == Ok(runs[id := ParseDemoRun(state).value])
    ensures Represents(RunStateSnapshot(NormalForm(state), StateHash(NormalForm(state))), id, ParseDemoRun(state).value)
  {
    RereadIsBaseline(base, id, runs[id]);
    IdentityKept(state);
    NormalFormStable(state);
    NormalFormFields(state);
    hide ParseDemoRun, SerializeDemoRun, DepthAtMost, ApplyDelta, AttemptsFit, HasRequired;
  }

  /** The next state that is compacted can be replayed exactly if the run is still what its
      baseline says; the full state could be replayed in any case. */
  lemma UndeclaredDeltaExactly(bytes: Payload -> nat, base: Baselines, draft: EventDraft, out: EventDraft, runs: Runs,
                               moved: RunStateSnapshot)
    requires Attributed(draft) && !Terminal(draft.eventType) && draft.run.Some? && Admissible(draft)
    requires FewOperations(out) && Snapshot(draft.run).Ok? && Snapshot(draft.run).value.Some?
    requires var current := Snapshot(draft.run).value.value;
             StringAt(current.value, "runId") == draft.runId && CompactedTo(bytes, base, draft, current, out)
    requires var id := draft.runId.value;
             && id in runs && Represents(moved, id, runs[id]) && base[id].hash == StateHash(base[id].value)
    ensures ApplyEvent(runs, draft).Ok?
    ensures ApplyEvent(runs, out).Ok? <==> moved.value == base[draft.runId.value].value
  {
    var id := draft.runId.value;
    hide ParseDemoRun, SerializeDemoRun, DepthAtMost, Snapshot, Projection, EffortOf, LeadsFromTo;
    StateApplied(base, draft, runs);
    if moved.value == base[id].value {
      UnmovedReplays(bytes, base, draft, out, runs);
    } else {
      MovedFails(bytes, base, draft, out, runs, moved);
    }
  }

  lemma UnmovedReplays(bytes: Payload -> nat, base: Baselines, draft: EventDraft, out: EventDraft, runs: Runs)
    requires Attributed(draft) && !Terminal(draft.eventType) && draft.run.Some? && Admissible(draft)
    requires FewOperations(out) && Snapshot(draft.run).Ok? && Snapshot(draft.run).value.Some?
    requires var current := Snapshot(draft.run).value.value;
             StringAt(current.value, "runId") == draft.runId && CompactedTo(bytes, base, draft, current, out)
    requires var id := draft.runId.value; id in runs && Represents(base[id], id, runs[id])
    ensures ApplyEvent(runs, out).Ok?
  {
    hide ParseDemoRun, SerializeDemoRun, Represents, Snapshot, Projection, EffortOf, LeadsFromTo, Admissible;
    hide ApplyDeltaEvent, DepthAtMost, Coherent, FewOperations;
    var id := draft.runId.value;
    var only := map[id := base[id]];
    SameCompaction(bytes, base, draft, Snapshot(draft.run).value.value, out);
    OneCoherent(base[id], id, runs);
    DeltaReplays(bytes, only, draft, out, runs);
  }

  /** A compaction looks at the baseline of its own run only. */
  lemma SameCompaction(bytes: Payload -> nat, base: Baselines, draft: EventDraft, current: RunStateSnapshot,
                       out: EventDraft)
    requires draft.runId.Some? && draft.run.Some? && CompactedTo(bytes, base, draft, current, out)
    ensures draft.runId.value in base
    ensures CompactedTo(bytes, map[draft.runId.value := base[draft.runId.value]], draft, current, out)
  {
    hide LeadsFromTo, Projection, EffortOf;
  }

  lemma OneCoherent(s: RunStateSnapshot, id: string, runs: Runs)
    requires id in runs && Represents(s, id, runs[id])
    ensures Coherent(map[id := s], runs)
  {
    hide Represents;
  }

  lemma MovedFails(bytes: Payload -> nat, base: Baselines, draft: EventDraft, out: EventDraft, runs: Runs,
                   moved: RunStateSnapshot)
    requires Attributed(draft) && !Terminal(draft.eventType) && draft.run.Some?
    requires Snapshot(draft.run).Ok? && Snapshot(draft.run).value.Some?
    requires CompactedTo(bytes, base, draft, Snapshot(draft.run).value.value, out)
    requires var id := draft.runId.value; id in runs && Represents(moved, id, runs[id]) && moved.value != base[id].value
    ensures ApplyEvent(runs, out).Err?
  {
    var id, d := draft.runId.value, out.delta.value;
    RereadIsBaseline(moved, id, runs[id]);
    hide ParseDemoRun, SerializeDemoRun, DepthAtMost, Snapshot, Projection, EffortOf, ApplyDelta;
    OtherBase(moved.value, base[id].value, Snapshot(draft.run).value.value.value, d);
  }

  lemma OtherBase(state: Json, previous: Json, next: Json, d: RunStateDelta)
    requires LeadsFromTo(d, previous, next) && state != previous
    ensures ApplyDelta(state, d).Err?
  {
  }
}
