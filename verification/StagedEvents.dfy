/** What staging writes and remembers for an event, by the names and limits of
    demo-run-persistence.ts alone. */
module StagedEvents {
  import opened Results
  import opened Json
  import opened RunStateDelta
  import opened RunStateDiff
  import opened DemoRunForm
  import opened RunJournal
  import opened JournalRuns
  import opened ReplayedRuns

  /** The fields that stay readable beside a delta. */
  function ReadableFields(): set<string> {
    {"runId", "threadId", "kernelId", "modelId", "providerModelId", "providerId", "agentVersionId", "globalAgentId",
     "globalAgentName", "teamId", "teamName", "resolutionSource", "credentialRefId", "contextWindow",
     "modelContextWindow", "contextWindowOverride", "effectiveContextWindow", "contextWindowSource",
     "kernelContextWindowLimit", "kernelSessionPlan", "retryCount"}
  }

  /** The event carries the state of a run. */
  predicate HasState(draft: EventDraft) {
    draft.run.Some? && ParseDemoRun(draft.run.value).Ok?
  }

  lemma SnapshotIs(draft: EventDraft)
    ensures Snapshot(draft.run).Ok? && Snapshot(draft.run).value.Some? <==> HasState(draft)
    ensures HasState(draft) ==> Snapshot(draft.run).value.value.value == NormalForm(draft.run.value)
  {
    hide NormalForm, HasRequired, ParseDemoRun;
    if HasState(draft) { OnlyRecords(draft.run.value); }
  }

  lemma OnlyRecords(v: Json)
    requires ParseDemoRun(v).Ok?
    ensures v.Obj? && HasRequired(v.fields)
  {
    hide HasRequired, ParseField;
  }

  /** One event, seen by the baseline of any run: the end of a run takes it away, its state
      replaces it, and nothing else changes it. */
  lemma BaselineAfter(base: Baselines, draft: EventDraft, id: string)
    ensures var after := BaseAfter(base, draft);
            if Ends(draft, id) then id !in after
            else if draft.runId == Some(id) && HasState(draft) then
              id in after && after[id].value == NormalForm(draft.run.value)
            else (id in after <==> id in base) && (id in after ==> after[id] == base[id])
  {
    SnapshotIs(draft);
    hide Snapshot, HasState, NormalForm;
  }

  /** After rows without state, the baselines are those of runs that none of them ended. */
  lemma {:induction false} ForgottenExactly(base: Baselines, events: seq<EventDraft>, id: string)
    ensures var kept := ForgetEnded(base, events);
            && (id in kept <==> id in base && forall i :: 0 <= i < |events| ==> !Ends(events[i], id))
            && (id in kept ==> kept[id] == base[id])
    decreases |events|
  {
    if events != [] {
      var e, rest := events[0], events[1..];
      var next := if Attributed(e) && Terminal(e.eventType) then base - {e.runId.value} else base;
      assert id in next <==> id in base && !Ends(e, id);
      ForgottenExactly(next, rest, id);
      hide Ends, Attributed, Terminal;
      forall i | 0 < i < |events| ensures events[i] == rest[i - 1] {
      }
      assert (forall i :: 0 <= i < |rest| ==> !Ends(rest[i], id)) && !Ends(e, id)
        <==> forall i :: 0 <= i < |events| ==> !Ends(events[i], id);
    }
  }

  /** A delta may stand for the state: there is a baseline of the same thread, and the state
      takes 4096 bytes or more. */
  ghost predicate WorthADelta(bytes: Payload -> nat, base: Baselines, draft: EventDraft) {
    && HasState(draft) && draft.runId.Some? && draft.runId.value in base
    && StringAt(base[draft.runId.value].value, "threadId") == StringAt(draft.run.value, "threadId")
    && bytes(Full(draft.run.value)) >= 4096
  }

  lemma ReadableIs(state: Json, name: string)
    requires state.Obj?
    ensures Get(Projection(state), name) == if name in ReadableFields() then Get(state, name) else None
  {
  }

  /** What is written for an event: the event itself, or, only where that is allowed and smaller,
      its readable fields and a delta. It stays as it is where the delta would not be smaller. */
  lemma StagedAs(bytes: Payload -> nat, base: Baselines, draft: EventDraft, out: EventDraft)
    requires PreparedOne(bytes, base, draft, out)
    ensures out != draft ==>
              && WorthADelta(bytes, base, draft) && draft.delta.None?
              && out.run.Some? && out.delta.Some? && out == draft.(run := out.run, delta := out.delta)
              && IsDiff(out.delta.value, base[draft.runId.value].value, NormalForm(draft.run.value))
              && bytes(Compact(out.run.value, out.delta.value)) < bytes(Full(draft.run.value))
              && forall name :: Get(out.run.value, name) ==
                   if name in ReadableFields() then Get(NormalForm(draft.run.value), name) else None
    ensures out == draft && WorthADelta(bytes, base, draft) ==>
              exists d, readable ::
                && IsDiff(d, base[draft.runId.value].value, NormalForm(draft.run.value))
                && bytes(Compact(readable, d)) >= bytes(Full(draft.run.value))
                && forall name :: Get(readable, name) ==
                     if name in ReadableFields() then Get(NormalForm(draft.run.value), name) else None
  {
    SnapshotIs(draft);
    if HasState(draft) {
      var state := NormalForm(draft.run.value);
      IdentityKept(draft.run.value);
      StateIsRecord(draft.run.value);
      forall name ensures Get(Projection(state), name) ==
                          if name in ReadableFields() then Get(state, name) else None
      {
        ReadableIs(state, name);
      }
    }
    hide Snapshot, HasState, NormalForm, ParseDemoRun, Projection, ReadableFields, IsDiff, Get, StringAt, ValidPath,
      DepthAtMost;
  }

  lemma StateIsRecord(v: Json)
    requires ParseDemoRun(v).Ok?
    ensures NormalForm(v).Obj?
  {
    hide ParseField, HasRequired, FieldNames;
  }
}
